/**
 * `generate_html` and `generate_latex`: the Jinja2 templates rendered at
 * the level of sections and entries.
 *
 * Both functions call `env.render(data=data, **resume_data)`, so inside the
 * templates `name` and `contact` come from the module-level `resume_data`,
 * while the section loop reads `data[...]`, the function's parameter. The
 * template name is ignored. No autoescaping is in force, so user text is
 * copied into the markup as it is.
 */
module Templates {
  import opened Wrappers
  import opened PyText
  import opened ResumeData
  import PdfStory

  // ---------------------------------------------------------------------
  // Jinja2 values and look-ups

  /** A template value: Jinja2's `Undefined` or a string. */
  datatype Value = Undefined | Str(s: string)

  /** An element of a list the template loops over: an entry dict, or a
      plain string (the skills list holds strings). */
  datatype Item = Record(fields: Entry) | Plain(text: string)

  /** `entry.key`: the dict's value for that key; undefined for a missing
      key, and for any attribute of a string. */
  function Attr(item: Item, key: string): (v: Value)
    ensures v.Str? <==> item.Record? && key in item.fields
  {
    match item
    case Record(e) => if key in e then Str(e[key]) else Undefined
    case Plain(_) => Undefined
  }

  /** `v | default(fallback)`: replaces only an undefined value. */
  function Default(v: Value, fallback: Value): Value
  {
    if v.Undefined? then fallback else v
  }

  /** `{{ v }}`: an undefined value prints as nothing. */
  function Output(v: Value): string
  {
    match v
    case Undefined => ""
    case Str(s) => s
  }

  /** `{% if v %}`: undefined and the empty string are false. */
  predicate Truthy(v: Value)
  {
    v.Str? && v.s != ""
  }

  // ---------------------------------------------------------------------
  // What the templates show, section by section and entry by entry

  /** One iteration of the inner loop: title, organisation, dates, and the
      description when it is truthy. */
  datatype EntryView = EntryView(title: string, organisation: string, dates: string, description: Option<string>)

  datatype SectionView = SectionView(heading: string, entries: seq<EntryView>)

  datatype DocumentView = DocumentView(name: string, contact: Contact, sections: seq<SectionView>)

  function ViewOf(item: Item): EntryView
  {
    EntryView(
      Output(Default(Attr(item, "job_title"), Attr(item, "degree"))),
      Output(Default(Attr(item, "company"), Attr(item, "institution"))),
      Output(Attr(item, "dates")),
      if Truthy(Attr(item, "description")) then Some(Output(Attr(item, "description"))) else None)
  }

  /** `section.lower().replace(' ', '_')` for the three section titles:
      the key of `data` the section's inner loop reads. */
  function DataKey(title: string): string
  {
    if title == "Work Experience" then "work_experience"
    else if title == "Education" then "education"
    else if title == "Skills" then "skills"
    else title
  }

  function Records(es: seq<Entry>): seq<Item>
  {
    seq(|es|, i requires 0 <= i < |es| => Record(es[i]))
  }

  function Plains(ss: seq<string>): seq<Item>
  {
    seq(|ss|, i requires 0 <= i < |ss| => Plain(ss[i]))
  }

  /** The list `data[key]` for the three list keys of `resume_data`; the
      section titles reach no other key. */
  function DataItems(data: Resume, key: string): seq<Item>
  {
    if key == "work_experience" then Records(data.workExperience)
    else if key == "education" then Records(data.education)
    else if key == "skills" then Plains(data.skills)
    else []
  }

  /** The sections the outer loop visits, in order. */
  const SectionTitles: seq<string> := ["Work Experience", "Education", "Skills"]

  function Views(items: seq<Item>): seq<EntryView>
  {
    seq(|items|, i requires 0 <= i < |items| => ViewOf(items[i]))
  }

  function SectionOf(data: Resume, title: string): SectionView
  {
    SectionView(title, Views(DataItems(data, DataKey(title))))
  }

  /** What both templates render: name and contact of `resume_data`, then
      every section of `SectionTitles`, its entries read from `data`. */
  function ViewDocument(globals: Resume, data: Resume): DocumentView
  {
    DocumentView(globals.name, globals.contact,
      seq(|SectionTitles|, i requires 0 <= i < |SectionTitles| => SectionOf(data, SectionTitles[i])))
  }

  /** The entry an item shows when its look-ups are all undefined: what
      every skill shows, since a skill is a string. */
  const BlankView: EntryView := EntryView("", "", "", None)

  /** Both templates show the name and contact of `resume_data` and all
      three section headings in the fixed order, whether or not a section
      has entries; the sections hold one entry per element of `data`'s
      lists, in order, and every skill shows as a blank entry. */
  lemma DocumentSections(globals: Resume, data: Resume)
    ensures var v := ViewDocument(globals, data);
      v.name == globals.name && v.contact == globals.contact
      && |v.sections| == 3
      && v.sections[0].heading == "Work Experience"
      && v.sections[1].heading == "Education"
      && v.sections[2].heading == "Skills"
      && |v.sections[0].entries| == |data.workExperience|
      && |v.sections[1].entries| == |data.education|
      && |v.sections[2].entries| == |data.skills|
      && (forall j | 0 <= j < |data.workExperience| :: v.sections[0].entries[j] == ViewOf(Record(data.workExperience[j])))
      && (forall j | 0 <= j < |data.education| :: v.sections[1].entries[j] == ViewOf(Record(data.education[j])))
      && (forall j | 0 <= j < |data.skills| :: v.sections[2].entries[j] == BlankView)
  {
    var v := ViewDocument(globals, data);
    assert v.sections[0] == SectionOf(data, "Work Experience");
    assert v.sections[1] == SectionOf(data, "Education");
    assert v.sections[2] == SectionOf(data, "Skills");
  }

  /** For an entry dict, `a | default(b)` and `dict.get(a, dict.get(b, ''))`
      agree: the HTML and LaTeX title, organisation and dates are the ones
      the PDF paragraph uses. */
  lemma FallbackAgreesWithPdf(e: Entry)
    ensures ViewOf(Record(e)).title == PdfStory.EntryTitle(e)
    ensures ViewOf(Record(e)).organisation == PdfStory.EntryOrganisation(e)
    ensures ViewOf(Record(e)).dates == Get(e, "dates", "")
  {
  }

  /** The description fragment is shown exactly when the item is a dict
      whose `description` is present and non-empty, and then it shows that
      text. */
  lemma DescriptionShown(item: Item)
    ensures ViewOf(item).description.Some? <==>
      item.Record? && "description" in item.fields && item.fields["description"] != ""
    ensures ViewOf(item).description.Some? ==> ViewOf(item).description.value == item.fields["description"]
  {
  }

  // ---------------------------------------------------------------------
  // The HTML template

  const HtmlStyle: string :=
    "<style>" + "body { font-family: Arial, sans-serif; } " + "h1 { color: #2c3e50; } "
    + ".section { margin-bottom: 20px; } " + ".entry { margin-bottom: 15px; }" + "</style>"

  function HtmlEntry(v: EntryView): string
  {
    "<div class=\"entry\"><h3>" + v.title + "</h3><p>" + v.organisation + " | " + v.dates + "</p>"
    + (match v.description case Some(d) => "<p>" + d + "</p>" case None => "")
    + "</div>"
  }

  function HtmlEntries(vs: seq<EntryView>): string
  {
    if vs == [] then "" else HtmlEntry(vs[0]) + HtmlEntries(vs[1..])
  }

  const HtmlSectionOpen: string := "<div class=\"section\">"

  function HtmlHeading(title: string): string
  {
    "<h2>" + title + "</h2>"
  }

  function HtmlSection(s: SectionView): string
  {
    HtmlSectionOpen + HtmlHeading(s.heading) + HtmlEntries(s.entries) + "</div>"
  }

  function HtmlSections(ss: seq<SectionView>): string
  {
    if ss == [] then "" else HtmlSection(ss[0]) + HtmlSections(ss[1..])
  }

  /** The contact block prints all four fields, with the `|` between email
      and phone and the two labels whether or not the fields are blank. */
  function HtmlContact(c: Contact): string
  {
    "<div class=\"contact\">" + c.email + " | " + c.phone + "<br>LinkedIn: " + c.linkedin
    + "<br>GitHub: " + c.github + "</div>"
  }

  function HtmlBeforeSections(v: DocumentView): string
  {
    "<!DOCTYPE html>" + "<html>" + "<head>" + "<title>" + v.name + " - Resume</title>" + HtmlStyle
    + "</head>" + "<body>" + "<h1>" + v.name + "</h1>" + HtmlContact(v.contact)
  }

  function HtmlDocument(v: DocumentView): string
  {
    HtmlBeforeSections(v) + HtmlSections(v.sections) + "</body></html>"
  }

  /** `generate_html(data, template_name)`; `globals` is `resume_data`. */
  function GenerateHtml(data: Resume, templateName: string, globals: Resume): Result<string, TemplateError>
  {
    match Compile(HtmlTitleLine)
    case Err(e) => Err(e)
    case Ok(_) => Ok(HtmlDocument(ViewDocument(globals, data)))
  }

  // ---------------------------------------------------------------------
  // The LaTeX template

  function LatexEntry(v: EntryView): string
  {
    "\\subsection*{ " + v.title + " }\n" + v.organisation + " \\hfill " + v.dates + " \\\\\n"
    + (match v.description case Some(d) => d case None => "") + "\n"
  }

  function LatexEntries(vs: seq<EntryView>): string
  {
    if vs == [] then "" else LatexEntry(vs[0]) + LatexEntries(vs[1..])
  }

  function LatexHeading(title: string): string
  {
    "\\section*{ " + title + " }\n"
  }

  function LatexSection(s: SectionView): string
  {
    LatexHeading(s.heading) + LatexEntries(s.entries)
  }

  function LatexSections(ss: seq<SectionView>): string
  {
    if ss == [] then "" else LatexSection(ss[0]) + LatexSections(ss[1..])
  }

  function LatexBeforeSections(v: DocumentView): string
  {
    "\\documentclass{article}\n" + "\\usepackage[utf8]{inputenc}\n" + "\\usepackage{hyperref}\n"
    + "\\begin{document}\n"
    + "\\section*{\\LARGE " + v.name + " }\n"
    + "\\begin{tabular}{ll}\n"
    + "Email: & " + v.contact.email + " \\\\\n"
    + "Phone: & " + v.contact.phone + " \\\\\n"
    + "LinkedIn: & \\url{ " + v.contact.linkedin + " } \\\\\n"
    + "GitHub: & \\url{ " + v.contact.github + " } \\\\\n"
    + "\\end{tabular}\n"
  }

  /** The document the corrected template renders. */
  function LatexDocument(v: DocumentView): string
  {
    LatexBeforeSections(v) + LatexSections(v.sections) + "\\end{document}\n"
  }

  /** `generate_latex(data, template_name)`; `globals` is `resume_data`. */
  function GenerateLatex(data: Resume, templateName: string, globals: Resume, rev: Revision): Result<string, TemplateError>
  {
    match Compile(LatexTitleLine(rev))
    case Err(e) => Err(e)
    case Ok(_) => Ok(LatexDocument(ViewDocument(globals, data)))
  }

  // ---------------------------------------------------------------------
  // Properties of the rendered text

  /** The heading of a view document: three sections, in the fixed order. */
  lemma ViewHeadings(globals: Resume, data: Resume)
    ensures var v := ViewDocument(globals, data);
      |v.sections| == 3
      && v.sections[0].heading == "Work Experience"
      && v.sections[1].heading == "Education"
      && v.sections[2].heading == "Skills"
  {
  }

  /** An HTML section holds its `<h2>` heading right after its opening `div`. */
  lemma HtmlSectionHeading(s: SectionView)
    ensures OccursAt(HtmlSection(s), HtmlHeading(s.heading), |HtmlSectionOpen|)
  {
    var h := HtmlHeading(s.heading);
    OccursWhole(h);
    OccursInContext(HtmlSectionOpen, h, HtmlEntries(s.entries), h, 0);
    OccursLeft(HtmlSectionOpen + h + HtmlEntries(s.entries), "</div>", h, |HtmlSectionOpen|);
  }

  /** A LaTeX section starts with its `\section*` heading. */
  lemma LatexSectionHeading(s: SectionView)
    ensures OccursAt(LatexSection(s), LatexHeading(s.heading), 0)
  {
    var h := LatexHeading(s.heading);
    OccursWhole(h);
    OccursLeft(h, LatexEntries(s.entries), h, 0);
  }

  /** Occurrences in three consecutive pieces appear in order in their
      concatenation. */
  lemma OccurInOrder(a: string, b: string, c: string, rest: string,
                     t0: string, t1: string, t2: string, k0: nat, k1: nat, k2: nat)
    requires OccursAt(a, t0, k0) && OccursAt(b, t1, k1) && OccursAt(c, t2, k2)
    requires |t0| > 0 && |t1| > 0
    ensures k0 < |a| + k1 < |a| + |b| + k2
    ensures OccursAt(a + (b + (c + rest)), t0, k0)
    ensures OccursAt(a + (b + (c + rest)), t1, |a| + k1)
    ensures OccursAt(a + (b + (c + rest)), t2, |a| + |b| + k2)
  {
    OccursLeft(a, b + (c + rest), t0, k0);
    OccursLeft(b, c + rest, t1, k1);
    OccursRight(a, b + (c + rest), t1, k1);
    OccursLeft(c, rest, t2, k2);
    OccursRight(b, c + rest, t2, k2);
    OccursRight(a, b + (c + rest), t2, |b| + k2);
  }

  /** Three sections print their headings in order. */
  lemma HtmlSectionsHeadings(ss: seq<SectionView>) returns (p0: nat, p1: nat, p2: nat)
    requires |ss| == 3
    ensures p0 < p1 < p2
    ensures OccursAt(HtmlSections(ss), HtmlHeading(ss[0].heading), p0)
    ensures OccursAt(HtmlSections(ss), HtmlHeading(ss[1].heading), p1)
    ensures OccursAt(HtmlSections(ss), HtmlHeading(ss[2].heading), p2)
  {
    var k := |HtmlSectionOpen|;
    assert ss[1..][0] == ss[1] && ss[1..][1..][0] == ss[2];
    var rest := HtmlSections(ss[1..][1..][1..]);
    assert HtmlSections(ss[1..][1..]) == HtmlSection(ss[2]) + rest;
    assert HtmlSections(ss[1..]) == HtmlSection(ss[1]) + HtmlSections(ss[1..][1..]);
    assert HtmlSections(ss) == HtmlSection(ss[0]) + (HtmlSection(ss[1]) + (HtmlSection(ss[2]) + rest));
    HtmlSectionHeading(ss[0]);
    HtmlSectionHeading(ss[1]);
    HtmlSectionHeading(ss[2]);
    OccurInOrder(HtmlSection(ss[0]), HtmlSection(ss[1]), HtmlSection(ss[2]), rest,
      HtmlHeading(ss[0].heading), HtmlHeading(ss[1].heading), HtmlHeading(ss[2].heading), k, k, k);
    p0, p1, p2 := k, |HtmlSection(ss[0])| + k, |HtmlSection(ss[0])| + |HtmlSection(ss[1])| + k;
  }

  /** Three sections print their headings in order. */
  lemma LatexSectionsHeadings(ss: seq<SectionView>) returns (p0: nat, p1: nat, p2: nat)
    requires |ss| == 3
    ensures p0 < p1 < p2
    ensures OccursAt(LatexSections(ss), LatexHeading(ss[0].heading), p0)
    ensures OccursAt(LatexSections(ss), LatexHeading(ss[1].heading), p1)
    ensures OccursAt(LatexSections(ss), LatexHeading(ss[2].heading), p2)
  {
    assert ss[1..][0] == ss[1] && ss[1..][1..][0] == ss[2];
    var rest := LatexSections(ss[1..][1..][1..]);
    assert LatexSections(ss[1..][1..]) == LatexSection(ss[2]) + rest;
    assert LatexSections(ss[1..]) == LatexSection(ss[1]) + LatexSections(ss[1..][1..]);
    assert LatexSections(ss) == LatexSection(ss[0]) + (LatexSection(ss[1]) + (LatexSection(ss[2]) + rest));
    LatexSectionHeading(ss[0]);
    LatexSectionHeading(ss[1]);
    LatexSectionHeading(ss[2]);
    OccurInOrder(LatexSection(ss[0]), LatexSection(ss[1]), LatexSection(ss[2]), rest,
      LatexHeading(ss[0].heading), LatexHeading(ss[1].heading), LatexHeading(ss[2].heading), 0, 0, 0);
    p0, p1, p2 := 0, |LatexSection(ss[0])|, |LatexSection(ss[0])| + |LatexSection(ss[1])|;
  }

  /** A view document with three sections prints their headings in order. */
  lemma HtmlDocumentHeadings(v: DocumentView) returns (p0: nat, p1: nat, p2: nat)
    requires |v.sections| == 3
    ensures |HtmlBeforeSections(v)| <= p0 < p1 < p2
    ensures OccursAt(HtmlDocument(v), HtmlHeading(v.sections[0].heading), p0)
    ensures OccursAt(HtmlDocument(v), HtmlHeading(v.sections[1].heading), p1)
    ensures OccursAt(HtmlDocument(v), HtmlHeading(v.sections[2].heading), p2)
  {
    var ss := v.sections;
    var pre, mid, post := HtmlBeforeSections(v), HtmlSections(ss), "</body></html>";
    var q0, q1, q2 := HtmlSectionsHeadings(ss);
    OccursInContext(pre, mid, post, HtmlHeading(ss[0].heading), q0);
    OccursInContext(pre, mid, post, HtmlHeading(ss[1].heading), q1);
    OccursInContext(pre, mid, post, HtmlHeading(ss[2].heading), q2);
    p0, p1, p2 := |pre| + q0, |pre| + q1, |pre| + q2;
  }

  lemma LatexDocumentHeadings(v: DocumentView) returns (p0: nat, p1: nat, p2: nat)
    requires |v.sections| == 3
    ensures |LatexBeforeSections(v)| <= p0 < p1 < p2
    ensures OccursAt(LatexDocument(v), LatexHeading(v.sections[0].heading), p0)
    ensures OccursAt(LatexDocument(v), LatexHeading(v.sections[1].heading), p1)
    ensures OccursAt(LatexDocument(v), LatexHeading(v.sections[2].heading), p2)
  {
    var ss := v.sections;
    var pre, mid, post := LatexBeforeSections(v), LatexSections(ss), "\\end{document}\n";
    var q0, q1, q2 := LatexSectionsHeadings(ss);
    OccursInContext(pre, mid, post, LatexHeading(ss[0].heading), q0);
    OccursInContext(pre, mid, post, LatexHeading(ss[1].heading), q1);
    OccursInContext(pre, mid, post, LatexHeading(ss[2].heading), q2);
    p0, p1, p2 := |pre| + q0, |pre| + q1, |pre| + q2;
  }

  /** The HTML document renders, and holds the three section headings in
      the order Work Experience, Education, Skills, even for empty lists. */
  lemma HtmlHeadingsInOrder(data: Resume, templateName: string, globals: Resume)
    returns (p0: nat, p1: nat, p2: nat)
    ensures GenerateHtml(data, templateName, globals).Ok?
    ensures var doc := GenerateHtml(data, templateName, globals).value;
      |HtmlBeforeSections(ViewDocument(globals, data))| <= p0 < p1 < p2
      && OccursAt(doc, HtmlHeading("Work Experience"), p0)
      && OccursAt(doc, HtmlHeading("Education"), p1)
      && OccursAt(doc, HtmlHeading("Skills"), p2)
  {
    HtmlTemplateCompiles();
    ViewHeadings(globals, data);
    p0, p1, p2 := HtmlDocumentHeadings(ViewDocument(globals, data));
  }

  /** The corrected LaTeX template holds the three `\section*` headings in
      the fixed order, even for empty lists. */
  lemma LatexHeadingsInOrder(data: Resume, templateName: string, globals: Resume)
    returns (p0: nat, p1: nat, p2: nat)
    ensures GenerateLatex(data, templateName, globals, Corrected).Ok?
    ensures var doc := GenerateLatex(data, templateName, globals, Corrected).value;
      |LatexBeforeSections(ViewDocument(globals, data))| <= p0 < p1 < p2
      && OccursAt(doc, LatexHeading("Work Experience"), p0)
      && OccursAt(doc, LatexHeading("Education"), p1)
      && OccursAt(doc, LatexHeading("Skills"), p2)
  {
    LatexTemplateCompilesCorrected();
    ViewHeadings(globals, data);
    p0, p1, p2 := LatexDocumentHeadings(ViewDocument(globals, data));
  }

  /** What the templates show depends on `resume_data`'s name and contact,
      on `data`'s work and education lists and on the NUMBER of skills only:
      not on the skills' text, not on `data`'s own name and contact, and not
      on the template name. */
  lemma ViewDependsOn(globals: Resume, d1: Resume, d2: Resume)
    requires d1.workExperience == d2.workExperience && d1.education == d2.education
    requires |d1.skills| == |d2.skills|
    ensures ViewDocument(globals, d1) == ViewDocument(globals, d2)
  {
    DocumentSections(globals, d1);
    DocumentSections(globals, d2);
    var v1, v2 := ViewDocument(globals, d1), ViewDocument(globals, d2);
    assert v1.sections[2].entries == v2.sections[2].entries;
    assert v1.sections[0] == v2.sections[0];
    assert v1.sections[1] == v2.sections[1];
    assert v1.sections[2] == v2.sections[2];
    assert v1.sections == v2.sections;
  }

  /** Hence the HTML and LaTeX text does not change with the skills' text. */
  lemma RenderedIgnoresSkillText(globals: Resume, d1: Resume, d2: Resume, t1: string, t2: string, rev: Revision)
    requires d1.workExperience == d2.workExperience && d1.education == d2.education
    requires |d1.skills| == |d2.skills|
    ensures GenerateHtml(d1, t1, globals) == GenerateHtml(d2, t2, globals)
    ensures GenerateLatex(d1, t1, globals, rev) == GenerateLatex(d2, t2, globals, rev)
  {
    ViewDependsOn(globals, d1, d2);
  }

  /** As written, `generate_latex` raises for every input. */
  lemma LatexAlwaysRaisesAsWritten(data: Resume, templateName: string, globals: Resume)
    ensures GenerateLatex(data, templateName, globals, AsWritten).Err?
  {
    LatexTemplateFailsAsWritten();
  }

  // ---------------------------------------------------------------------
  // Template compilation

  datatype TemplateError = TemplateSyntaxError(message: string)

  /** The text after the first `{{` of a template, if there is one. */
  function AfterFirstOpen(t: string): Option<string>
  {
    if |t| < 2 then None
    else if t[0] == '{' && t[1] == '{' then Some(t[2..])
    else AfterFirstOpen(t[1..])
  }

  /** A character some token of a Jinja2 expression can begin with: white
      space, a name, a number, a string, or an operator. */
  predicate CanStartToken(c: char)
  {
    IsSpace(c) || 'a' <= c <= 'z' || 'A' <= c <= 'Z' || '0' <= c <= '9' || c == '_'
    || c == '\'' || c == '"' || c in "+-*/%~()[]{}=!<>.:|,;"
  }

  /** `Environment(...).from_string(t)`, checked only as far as the first
      expression block: the lexer raises `TemplateSyntaxError` when its
      first character begins no token. The rest of Jinja2's syntax is
      taken to be valid. */
  function Compile(t: string): Result<(), TemplateError>
  {
    match AfterFirstOpen(t)
    case None => Ok(())
    case Some(rest) =>
      if rest != "" && !CanStartToken(rest[0]) then Err(TemplateSyntaxError("unexpected char '" + [rest[0]] + "'"))
      else Ok(())
  }

  lemma {:induction false} SkipBraceFree(a: string, b: string)
    requires '{' !in a
    ensures AfterFirstOpen(a + b) == AfterFirstOpen(b)
  {
    if a == "" {
      ConcatEmpty(a, b);
    } else {
      assert (a + b)[0] == a[0];
      ConcatTail(a, b);
      forall k | 0 <= k < |a| - 1 ensures a[1..][k] != '{' {
        assert a[1..][k] == a[k + 1];
      }
      SkipBraceFree(a[1..], b);
    }
  }

  lemma SkipSingleBrace(b: string)
    requires b != "" && b[0] != '{'
    ensures AfterFirstOpen("{" + b) == AfterFirstOpen(b)
  {
    assert ("{" + b)[1..] == b;
  }

  lemma OpenHere(b: string)
    ensures AfterFirstOpen("{{" + b) == Some(b)
  {
    assert ("{{" + b)[2..] == b;
  }

  /** The line of the HTML template holding its first expression (line 159
      of app.py; no earlier line holds `{{`):
      `<title>{{ name }} - Resume</title>`. */
  const HtmlTitleLine: string := "<title>" + ("{{" + " name }} - Resume</title>")

  /** The line of the LaTeX template holding its first expression (line
      200 of app.py; no earlier line holds `{{`). As written, `\section*{{\LARGE` opens an
      expression block with a backslash in it. */
  function LatexTitleLine(rev: Revision): string
  {
    match rev
    case AsWritten => "\\section*" + ("{{" + "\\LARGE {{ name }} }}")
    case Corrected => "\\section*" + ("{" + ("\\LARGE " + ("{{" + " name }} }")))
  }

  /** The HTML template compiles. */
  lemma HtmlTemplateCompiles()
    ensures Compile(HtmlTitleLine) == Ok(())
  {
    OpenHere(" name }} - Resume</title>");
    SkipBraceFree("<title>", "{{" + " name }} - Resume</title>");
  }

  /** As written, the LaTeX template does not compile: the first expression
      block starts with a backslash. */
  lemma LatexTemplateFailsAsWritten()
    ensures Compile(LatexTitleLine(AsWritten)).Err?
  {
    var rest := "\\LARGE {{ name }} }}";
    OpenHere(rest);
    SkipBraceFree("\\section*", "{{" + rest);
    assert rest[0] == '\\';
    BackslashStartsNoToken();
  }

  /** No Jinja2 token begins with a backslash. */
  lemma BackslashStartsNoToken()
    ensures !CanStartToken('\\')
  {
    assert !IsSpace('\\');
    assert '\\' !in "+-*/%~()[]{}=!<>.:|,;";
  }

  /** Corrected, the LaTeX template compiles. */
  lemma LatexTemplateCompilesCorrected()
    ensures Compile(LatexTitleLine(Corrected)) == Ok(())
  {
    var rest := " name }} }";
    OpenHere(rest);
    SkipBraceFree("\\LARGE ", "{{" + rest);
    SkipSingleBrace("\\LARGE " + ("{{" + rest));
    SkipBraceFree("\\section*", "{" + ("\\LARGE " + ("{{" + rest)));
  }
}
