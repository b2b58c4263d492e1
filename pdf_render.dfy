/**
 * `generate_pdf`: the statements that build the story one `append` at a
 * time, and what the function returns.
 *
 * A defect in the code as written: `Spacer` is called (the spacer after
 * the contact line and the ones in the section loop) but is not among the
 * names imported from `reportlab.platypus`, so the "Basic" branch raises a
 * `NameError` before any section is built; the `except Exception` clause
 * turns it into `None`. Name resolution is modelled by the set of names
 * bound at module level, so that the code as written and the code with the
 * import added can both be stated.
 */
module PdfRender {
  import opened Wrappers
  import opened PyText
  import opened ResumeData
  import opened PdfStory

  newtype byte = x: int | 0 <= x < 256

  /** What `doc.build(story)` followed by `buffer.getvalue()` gives: the
      bytes ReportLab wrote, or an exception it raised. A `Paragraph` parses
      its markup when it is constructed, so malformed markup raises earlier,
      while the story is built; since any exception becomes `None`, the
      model folds those errors into `BuildRaised` as well. ReportLab's
      layout is outside this model. */
  datatype BuildResult = Written(bytes: seq<byte>) | BuildRaised(message: string)

  /** The story, or the global name whose lookup raised `NameError`. */
  datatype StoryOutcome = Built(story: seq<Block>) | NameError(name: string)

  /** The module-level names of app.py bound whenever `generate_pdf` runs:
      its imports and its unconditional top-level assignments and
      definitions. Left out are the loop variables `i` and `entry`, bound
      only when a list is non-empty, and `pdf_bytes`, `html_content` and
      `latex_content`, not yet bound at that point; the story builder looks
      up none of them. */
  const ModuleNames: set<string> := {
    "st", "Environment", "BaseLoader", "letter", "canvas", "getSampleStyleSheet",
    "Paragraph", "SimpleDocTemplate", "PyPDF2", "io",
    "get_entry", "name", "email", "phone", "linkedin", "github", "work_inputs",
    "education_inputs", "skills", "template", "export_format", "resume_data",
    "generate_pdf", "generate_html", "generate_latex"}

  /** The same module with `Spacer` imported from `reportlab.platypus`. */
  const FixedNames: set<string> := ModuleNames + {"Spacer"}

  /** The global names the "Basic" branch looks up, in evaluation order, up
      to and including the first spacer; later look-ups repeat these. */
  const StoryNames: seq<string> := ["SimpleDocTemplate", "letter", "getSampleStyleSheet", "Paragraph", "Spacer"]

  /** The first of `order` that is not bound, if any. */
  function FirstUnbound(names: set<string>, order: seq<string>): (r: Option<string>)
    ensures r.None? <==> forall k | 0 <= k < |order| :: order[k] in names
    ensures r.Some? ==> r.value in order && r.value !in names
    ensures r.Some? ==> exists k | 0 <= k < |order| :: order[k] == r.value && forall m | 0 <= m < k :: order[m] in names
  {
    if order == [] then None
    else if order[0] !in names then Some(order[0])
    else
      var r := FirstUnbound(names, order[1..]);
      if r.Some? then
        var k :| 0 <= k < |order[1..]| && order[1..][k] == r.value && forall m | 0 <= m < k :: order[1..][m] in names;
        assert order[k + 1] == r.value && forall m | 0 <= m < k + 1 :: order[m] in names;
        r
      else r
  }

  /** The story the "Basic" branch builds, or the `NameError` it raises. */
  function StoryResult(data: Resume, names: set<string>): StoryOutcome
  {
    var missing := FirstUnbound(names, StoryNames);
    if missing.Some? then NameError(missing.value) else Built(Story(data))
  }

  /** What `generate_pdf(data, template_name)` returns: `None` for any
      template other than "Basic" (the function falls off its end), `None`
      when the body raises (the `except Exception` clause), otherwise the
      bytes ReportLab wrote. */
  function PdfResult(data: Resume, templateName: string, names: set<string>,
                     build: seq<Block> -> BuildResult): Option<seq<byte>>
  {
    if templateName != "Basic" then None
    else match StoryResult(data, names)
      case NameError(_) => None
      case Built(story) =>
        match build(story)
        case Written(b) => Some(b)
        case BuildRaised(_) => None
  }

  lemma StoryNamesLookup(names: set<string>)
    ensures FirstUnbound(names, StoryNames) ==
      if "SimpleDocTemplate" !in names then Some("SimpleDocTemplate")
      else if "letter" !in names then Some("letter")
      else if "getSampleStyleSheet" !in names then Some("getSampleStyleSheet")
      else if "Paragraph" !in names then Some("Paragraph")
      else if "Spacer" !in names then Some("Spacer")
      else None
  {
    var o := StoryNames;
    assert o[1..] == ["letter", "getSampleStyleSheet", "Paragraph", "Spacer"];
    assert o[1..][1..] == ["getSampleStyleSheet", "Paragraph", "Spacer"];
    assert o[1..][1..][1..] == ["Paragraph", "Spacer"];
    assert o[1..][1..][1..][1..] == ["Spacer"];
    assert o[1..][1..][1..][1..][1..] == [];
    assert FirstUnbound(names, o[1..][1..][1..][1..]) == if "Spacer" !in names then Some("Spacer") else None;
    assert FirstUnbound(names, o[1..][1..][1..]) ==
      if "Paragraph" !in names then Some("Paragraph") else FirstUnbound(names, o[1..][1..][1..][1..]);
    assert FirstUnbound(names, o[1..][1..]) ==
      if "getSampleStyleSheet" !in names then Some("getSampleStyleSheet") else FirstUnbound(names, o[1..][1..][1..]);
    assert FirstUnbound(names, o[1..]) ==
      if "letter" !in names then Some("letter") else FirstUnbound(names, o[1..][1..]);
  }

  lemma EntryBlocksSnoc(texts: seq<string>, j: nat)
    requires j < |texts|
    ensures EntryBlocks(texts[..j + 1]) == EntryBlocks(texts[..j]) + [Body(texts[j]), Spacer(6)]
  {
    assert texts[..j + 1][..j] == texts[..j];
  }

  /** The text of entry `j`: the bullet and the skill for the skills,
      otherwise the `<br/>`-joined entry parts. */
  method EntryParagraph(data: Resume, key: SectionKey, j: nat) returns (text: string)
    requires j < SectionSize(data, key)
    ensures text == Paragraphs(data, key)[j]
  {
    if key == Skills {
      text := SkillText(data.skills[j]);
    } else if key == WorkExperience {
      text := EntryText(data.workExperience[j]);
    } else {
      text := EntryText(data.education[j]);
    }
  }

  /** One pass of the section loop: when the section's list is non-empty,
      appends its heading, a paragraph and a 6-point spacer per entry, and a
      12-point spacer; otherwise appends nothing. */
  method AppendSection(story: seq<Block>, data: Resume, title: string, key: SectionKey)
    returns (story': seq<Block>)
    ensures story' == story + SectionBlocks(title, Paragraphs(data, key))
  {
    story' := story;
    ghost var texts := Paragraphs(data, key);
    var n := SectionSize(data, key);
    if n > 0 {
      story' := story' + [Heading(title)];
      for j := 0 to n
        invariant story' == (story + [Heading(title)]) + EntryBlocks(texts[..j])
      {
        var text := EntryParagraph(data, key, j);
        EntryBlocksSnoc(texts, j);
        ConcatAssoc(story + [Heading(title)], EntryBlocks(texts[..j]), [Body(text), Spacer(6)]);
        story' := story' + [Body(text), Spacer(6)];
      }
      assert texts[..n] == texts;
      story' := story' + [Spacer(12)];
      ConcatAssoc(story, [Heading(title)], EntryBlocks(texts));
      ConcatAssoc(story, [Heading(title)] + EntryBlocks(texts), [Spacer(12)]);
    } else {
      assert texts == [];
      ConcatEmpty([], story);
    }
  }

  lemma SectionsUpToStep(opening: seq<Block>, data: Resume, si: nat)
    requires si < |Sections|
    ensures opening + SectionsUpTo(data, si + 1) == opening + SectionsUpTo(data, si) + SectionAt(data, si)
  {
  }

  /** The loop over the three sections, appended after the opening blocks. */
  method AppendSections(opening: seq<Block>, data: Resume) returns (story: seq<Block>)
    requires opening == Opening(data)
    ensures story == Story(data)
  {
    story := opening;
    for si := 0 to |Sections|
      invariant story == opening + SectionsUpTo(data, si)
    {
      var title, key := Sections[si].0, Sections[si].1;
      story := AppendSection(story, data, title, key);
      SectionsUpToStep(opening, data, si);
    }
  }

  /** Builds the story step by step as the "Basic" branch does. */
  method BuildStory(data: Resume, names: set<string>) returns (outcome: StoryOutcome)
    ensures outcome == StoryResult(data, names)
  {
    // SimpleDocTemplate(buffer, pagesize=letter, ...) and getSampleStyleSheet()
    if "SimpleDocTemplate" !in names {
      StoryNamesLookup(names);
      return NameError("SimpleDocTemplate");
    }
    if "letter" !in names {
      StoryNamesLookup(names);
      return NameError("letter");
    }
    if "getSampleStyleSheet" !in names {
      StoryNamesLookup(names);
      return NameError("getSampleStyleSheet");
    }
    var story: seq<Block> := [];
    if "Paragraph" !in names {
      StoryNamesLookup(names);
      return NameError("Paragraph");
    }
    story := story + [Title(data.name)];
    var contactText := ContactLine(data.contact);
    story := story + [Body(contactText)];
    if "Spacer" !in names {
      StoryNamesLookup(names);
      return NameError("Spacer");
    }
    story := story + [Spacer(12)];
    // From here on every name looked up is one already found above.
    story := AppendSections(story, data);
    StoryNamesLookup(names);
    outcome := Built(story);
  }

  /** `generate_pdf(data, template_name)`, with `doc.build` as a parameter. */
  method GeneratePdf(data: Resume, templateName: string, names: set<string>,
                     build: seq<Block> -> BuildResult) returns (pdf: Option<seq<byte>>)
    ensures pdf == PdfResult(data, templateName, names, build)
    ensures templateName != "Basic" ==> pdf == None
    ensures pdf.Some? ==> FirstUnbound(names, StoryNames).None? && build(Story(data)) == Written(pdf.value)
  {
    if templateName == "Basic" {
      var outcome := BuildStory(data, names);
      match outcome
      case NameError(_) =>
        // `except Exception as e`: the error is shown and None returned.
        pdf := None;
      case Built(story) =>
        match build(story)
        case Written(b) => pdf := Some(b);
        case BuildRaised(_) => pdf := None;
    } else {
      pdf := None;
    }
  }

  /** As written, the first name the "Basic" branch cannot resolve is `Spacer`. */
  lemma SpacerUnboundAsWritten()
    ensures FirstUnbound(ModuleNames, StoryNames) == Some("Spacer")
  {
    StoryNamesLookup(ModuleNames);
  }

  /** As written, `generate_pdf` returns `None` for every resume, every
      template and every outcome ReportLab would have had. */
  lemma BasicAlwaysNoneAsWritten(data: Resume, templateName: string, build: seq<Block> -> BuildResult)
    ensures PdfResult(data, templateName, ModuleNames, build) == None
  {
    SpacerUnboundAsWritten();
  }

  /** With `Spacer` imported, the "Basic" template returns exactly what
      ReportLab writes for the story, and `None` only when it raises. */
  lemma FixedImportBuildsStory(data: Resume, build: seq<Block> -> BuildResult)
    ensures FirstUnbound(FixedNames, StoryNames).None?
    ensures PdfResult(data, "Basic", FixedNames, build) ==
      if build(Story(data)).Written? then Some(build(Story(data)).bytes) else None
  {
    StoryNamesLookup(FixedNames);
  }
}
