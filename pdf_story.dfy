/**
 * The ordered list of flowables ("story") that `generate_pdf` hands to
 * ReportLab, as a specification over values. Paragraph styles, fonts and
 * page layout are not modelled: a block only records its kind and text.
 */
module PdfStory {
  import opened PyText
  import opened ResumeData

  /** `Paragraph(text, styles['Title' | 'BodyText' | 'Heading2'])` and `Spacer(1, height)`. */
  datatype Block = Title(text: string) | Body(text: string) | Heading(text: string) | Spacer(height: nat)

  function ContactFields(c: Contact): seq<string>
  {
    [c.email, c.phone, c.linkedin, c.github]
  }

  /** `" | ".join(filter(None, contact_info))`. */
  function ContactLine(c: Contact): string
  {
    Join(NonEmpty(ContactFields(c)), " | ")
  }

  /** The title of an entry: `job_title` when that key is present (even if
      empty), otherwise `degree`, otherwise empty. */
  function EntryTitle(e: Entry): string
  {
    Get(e, "job_title", Get(e, "degree", ""))
  }

  /** The organisation: `company` when present, otherwise `institution`. */
  function EntryOrganisation(e: Entry): string
  {
    Get(e, "company", Get(e, "institution", ""))
  }

  function Bold(s: string): string
  {
    "<b>" + s + "</b>"
  }

  /** The parts after the bold title: organisation, dates, description. */
  function EntryDetails(e: Entry): seq<string>
  {
    [EntryOrganisation(e), Get(e, "dates", ""), Get(e, "description", "")]
  }

  /** The paragraph text of a work or education entry. */
  function EntryText(e: Entry): string
  {
    Join(NonEmpty([Bold(EntryTitle(e))] + EntryDetails(e)), "<br/>")
  }

  /** The paragraph text of a skill. */
  function SkillText(skill: string): string
  {
    "\U{2022} " + skill
  }

  /** The three keys of `resume_data` the story walks through. */
  datatype SectionKey = WorkExperience | Education | Skills

  /** The sections in the order the story visits them. */
  const Sections: seq<(string, SectionKey)> :=
    [("Work Experience", WorkExperience), ("Education", Education), ("Skills", Skills)]

  function SectionSize(r: Resume, key: SectionKey): nat
  {
    match key
    case WorkExperience => |r.workExperience|
    case Education => |r.education|
    case Skills => |r.skills|
  }

  /** The paragraph text of entry `j` of a section: `f"• {entry}"` for the
      skills, the `<br/>`-joined entry parts otherwise. */
  function ParagraphAt(r: Resume, key: SectionKey, j: nat): string
    requires j < SectionSize(r, key)
  {
    match key
    case WorkExperience => EntryText(r.workExperience[j])
    case Education => EntryText(r.education[j])
    case Skills => SkillText(r.skills[j])
  }

  function Paragraphs(r: Resume, key: SectionKey): seq<string>
  {
    seq(SectionSize(r, key), j requires 0 <= j < SectionSize(r, key) => ParagraphAt(r, key, j))
  }

  /** One paragraph and a 6-point spacer per entry, in entry order. */
  function EntryBlocks(texts: seq<string>): seq<Block>
  {
    if texts == [] then []
    else EntryBlocks(texts[..|texts| - 1]) + [Body(texts[|texts| - 1]), Spacer(6)]
  }

  /** A section: nothing when it has no entries, otherwise its heading, its
      entries and a closing 12-point spacer. */
  function SectionBlocks(title: string, texts: seq<string>): seq<Block>
  {
    if texts == [] then [] else [Heading(title)] + EntryBlocks(texts) + [Spacer(12)]
  }

  /** Name, contact line and a 12-point spacer. */
  function Opening(r: Resume): seq<Block>
  {
    [Title(r.name), Body(ContactLine(r.contact)), Spacer(12)]
  }

  /** The blocks of section `i`. */
  function SectionAt(r: Resume, i: nat): seq<Block>
    requires i < |Sections|
  {
    SectionBlocks(Sections[i].0, Paragraphs(r, Sections[i].1))
  }

  /** The blocks of the first `n` sections. */
  function SectionsUpTo(r: Resume, n: nat): seq<Block>
    requires n <= |Sections|
  {
    if n == 0 then [] else SectionsUpTo(r, n - 1) + SectionAt(r, n - 1)
  }

  /** The whole story `generate_pdf` builds for the "Basic" template. */
  function Story(r: Resume): seq<Block>
  {
    Opening(r) + SectionsUpTo(r, |Sections|)
  }

  /** The texts of the heading blocks, in order. */
  function Headings(blocks: seq<Block>): seq<string>
  {
    if blocks == [] then []
    else (if blocks[0].Heading? then [blocks[0].text] else []) + Headings(blocks[1..])
  }

  /** The texts of the body paragraphs, in order. */
  function Bodies(blocks: seq<Block>): seq<string>
  {
    if blocks == [] then []
    else (if blocks[0].Body? then [blocks[0].text] else []) + Bodies(blocks[1..])
  }

  // ---------------------------------------------------------------------
  // The contact line

  /** The contact line is empty exactly when all four contact fields are. */
  lemma ContactLineBlank(c: Contact)
    ensures ContactLine(c) == "" <==>
      c.email == "" && c.phone == "" && c.linkedin == "" && c.github == ""
  {
    var ks := NonEmpty(ContactFields(c));
    JoinBlank(ks, " | ");
    NonEmptyNone(ContactFields(c));
    if ks == [] {
      assert ContactFields(c)[0] == "" && ContactFields(c)[1] == "";
      assert ContactFields(c)[2] == "" && ContactFields(c)[3] == "";
    }
  }

  /** `filter(None, ...)` on the four contact fields keeps the non-empty
      ones in the order email, phone, linkedin, github. */
  lemma ContactFieldsKept(c: Contact)
    ensures NonEmpty(ContactFields(c)) ==
      (if c.email == "" then [] else [c.email]) + (if c.phone == "" then [] else [c.phone])
      + (if c.linkedin == "" then [] else [c.linkedin]) + (if c.github == "" then [] else [c.github])
  {
    assert ContactFields(c) == [c.email] + [c.phone] + [c.linkedin] + [c.github];
    NonEmptyConcat([c.email] + [c.phone] + [c.linkedin], [c.github]);
    NonEmptyConcat([c.email] + [c.phone], [c.linkedin]);
    NonEmptyConcat([c.email], [c.phone]);
    NonEmptySingle(c.email);
    NonEmptySingle(c.phone);
    NonEmptySingle(c.linkedin);
    NonEmptySingle(c.github);
  }

  /** The contact line starts with the first kept field and ends with the
      last one, so no separator leads or trails, and its length is that of
      the kept fields plus one `" | "` per gap between them. */
  lemma ContactLineShape(c: Contact)
    ensures var ks := NonEmpty(ContactFields(c));
      ks != [] ==>
        |ContactLine(c)| == TotalLength(ks) + 3 * (|ks| - 1)
        && StartsWith(ContactLine(c), ks[0]) && EndsWith(ContactLine(c), ks[|ks| - 1])
  {
    var ks := NonEmpty(ContactFields(c));
    if ks != [] {
      JoinShape(ks, " | ");
    }
  }

  // ---------------------------------------------------------------------
  // Entry paragraphs

  /** An entry paragraph always starts with the bold title, even when the
      title is empty; it is just that bold title exactly when organisation,
      dates and description are all empty; otherwise it is the bold title,
      `<br/>`, and the `<br/>`-join of the non-empty details. */
  lemma EntryTextShape(e: Entry)
    ensures StartsWith(EntryText(e), Bold(EntryTitle(e)))
    ensures EntryText(e) == Bold(EntryTitle(e)) <==> NonEmpty(EntryDetails(e)) == []
    ensures NonEmpty(EntryDetails(e)) != [] ==>
      EntryText(e) == Bold(EntryTitle(e)) + "<br/>" + Join(NonEmpty(EntryDetails(e)), "<br/>")
    ensures Get(e, "description", "") != "" ==> EndsWith(EntryText(e), Get(e, "description", ""))
  {
    var b := Bold(EntryTitle(e));
    var ds := EntryDetails(e);
    var ks := NonEmpty(ds);
    assert |b| == |EntryTitle(e)| + 7;
    NonEmptySingle(b);
    NonEmptyConcat([b], ds);
    assert NonEmpty([b] + ds) == [b] + ks;
    JoinHead(b, ks, "<br/>");
    if Get(e, "description", "") != "" {
      assert ds[|ds| - 1] == Get(e, "description", "");
      NonEmptyLast(ds);
    }
  }

  /** The fallbacks follow `dict.get`: a present but empty `job_title` or
      `company` still wins over `degree` or `institution`. */
  lemma EntryFallbacks(e: Entry)
    ensures "job_title" in e ==> EntryTitle(e) == e["job_title"]
    ensures "job_title" !in e && "degree" in e ==> EntryTitle(e) == e["degree"]
    ensures "job_title" !in e && "degree" !in e ==> EntryTitle(e) == ""
    ensures "company" in e ==> EntryOrganisation(e) == e["company"]
    ensures "company" !in e && "institution" in e ==> EntryOrganisation(e) == e["institution"]
    ensures "company" !in e && "institution" !in e ==> EntryOrganisation(e) == ""
  {
  }

  // ---------------------------------------------------------------------
  // Sections and the whole story

  lemma {:induction false} EntryBlocksAt(texts: seq<string>)
    ensures |EntryBlocks(texts)| == 2 * |texts|
    ensures forall i | 0 <= i < |texts| ::
      EntryBlocks(texts)[2 * i] == Body(texts[i]) && EntryBlocks(texts)[2 * i + 1] == Spacer(6)
  {
    if texts != [] {
      var init := texts[..|texts| - 1];
      EntryBlocksAt(init);
      forall i | 0 <= i < |texts| - 1 ensures texts[i] == init[i] { }
    }
  }

  /** A section with entries is its heading, a (paragraph, 6-point spacer)
      pair per entry in entry order, and a 12-point spacer: 2n + 2 blocks. A
      section without entries contributes nothing. */
  lemma SectionBlocksShape(title: string, texts: seq<string>)
    ensures texts == [] ==> SectionBlocks(title, texts) == []
    ensures texts != [] ==>
      var bs := SectionBlocks(title, texts);
      |bs| == 2 * |texts| + 2 && bs[0] == Heading(title) && bs[|bs| - 1] == Spacer(12)
      && forall i | 0 <= i < |texts| :: bs[2 * i + 1] == Body(texts[i]) && bs[2 * i + 2] == Spacer(6)
  {
    EntryBlocksAt(texts);
    if texts != [] {
      var eb := EntryBlocks(texts);
      var bs := SectionBlocks(title, texts);
      Enclosed(Heading(title), eb, Spacer(12));
      forall i | 0 <= i < |texts|
        ensures bs[2 * i + 1] == Body(texts[i]) && bs[2 * i + 2] == Spacer(6)
      {
        assert bs[2 * i + 1] == eb[2 * i];
        assert bs[2 * i + 2] == eb[2 * i + 1];
      }
    }
  }

  /** Indexing a sequence enclosed between two elements. */
  lemma Enclosed<T>(x: T, m: seq<T>, y: T)
    ensures |[x] + m + [y]| == |m| + 2
    ensures ([x] + m + [y])[0] == x && ([x] + m + [y])[|m| + 1] == y
    ensures forall k | 0 <= k < |m| :: ([x] + m + [y])[k + 1] == m[k]
  {
  }

  lemma {:induction false} HeadingsConcat(a: seq<Block>, b: seq<Block>)
    ensures Headings(a + b) == Headings(a) + Headings(b)
  {
    if a == [] {
      ConcatEmpty(a, b);
    } else {
      assert (a + b)[0] == a[0];
      ConcatTail(a, b);
      HeadingsConcat(a[1..], b);
    }
  }

  lemma {:induction false} BodiesConcat(a: seq<Block>, b: seq<Block>)
    ensures Bodies(a + b) == Bodies(a) + Bodies(b)
  {
    if a == [] {
      ConcatEmpty(a, b);
    } else {
      assert (a + b)[0] == a[0];
      ConcatTail(a, b);
      BodiesConcat(a[1..], b);
    }
  }

  lemma {:induction false} EntryBlocksTexts(texts: seq<string>)
    ensures Headings(EntryBlocks(texts)) == []
    ensures Bodies(EntryBlocks(texts)) == texts
  {
    if texts != [] {
      var init := texts[..|texts| - 1];
      var pair := [Body(texts[|texts| - 1]), Spacer(6)];
      EntryBlocksTexts(init);
      HeadingsConcat(EntryBlocks(init), pair);
      BodiesConcat(EntryBlocks(init), pair);
      assert pair[1..] == [Spacer(6)];
      assert pair[1..][1..] == [];
      assert Headings(pair[1..]) == [] by { assert Headings(pair[1..][1..]) == []; }
      assert Bodies(pair[1..]) == [] by { assert Bodies(pair[1..][1..]) == []; }
      assert init + [texts[|texts| - 1]] == texts;
    }
  }

  lemma SectionBlocksTexts(title: string, texts: seq<string>)
    ensures Headings(SectionBlocks(title, texts)) == if texts == [] then [] else [title]
    ensures Bodies(SectionBlocks(title, texts)) == texts
  {
    if texts != [] {
      var eb := EntryBlocks(texts);
      EntryBlocksTexts(texts);
      HeadingsConcat([Heading(title)] + eb, [Spacer(12)]);
      HeadingsConcat([Heading(title)], eb);
      BodiesConcat([Heading(title)] + eb, [Spacer(12)]);
      BodiesConcat([Heading(title)], eb);
      SingleBlockTexts(Heading(title));
      SingleBlockTexts(Spacer(12));
      ConcatEmpty([], texts);
      ConcatEmpty([], [title]);
    }
  }

  lemma SingleBlockTexts(b: Block)
    ensures Headings([b]) == if b.Heading? then [b.text] else []
    ensures Bodies([b]) == if b.Body? then [b.text] else []
  {
    assert [b][1..] == [];
  }

  /** The story is the opening followed by the three sections in order. */
  lemma StoryParts(r: Resume)
    ensures Story(r) == Opening(r) + SectionAt(r, 0) + SectionAt(r, 1) + SectionAt(r, 2)
  {
    var w, d, s := SectionAt(r, 0), SectionAt(r, 1), SectionAt(r, 2);
    assert SectionsUpTo(r, 1) == w by { assert SectionsUpTo(r, 0) == []; assert [] + w == w; }
    assert SectionsUpTo(r, 2) == w + d;
    assert SectionsUpTo(r, 3) == w + d + s;
    assert Opening(r) + (w + d + s) == Opening(r) + w + d + s;
  }

  /** Which section each index is. */
  lemma SectionsTable()
    ensures Sections[0] == ("Work Experience", WorkExperience)
    ensures Sections[1] == ("Education", Education)
    ensures Sections[2] == ("Skills", Skills)
  {
  }

  lemma OpeningTexts(r: Resume)
    ensures Headings(Opening(r)) == []
    ensures Bodies(Opening(r)) == [ContactLine(r.contact)]
  {
    var o := Opening(r);
    assert o[1..] == [Body(ContactLine(r.contact)), Spacer(12)];
    assert o[1..][1..] == [Spacer(12)];
    assert o[1..][1..][1..] == [];
    assert Headings(o[1..][1..]) == [] by { assert Headings(o[1..][1..][1..]) == []; }
    assert Bodies(o[1..][1..]) == [] by { assert Bodies(o[1..][1..][1..]) == []; }
  }

  /** The story opens with the name as title, the contact line and a
      12-point spacer, whatever the resume holds. */
  lemma StoryOpening(r: Resume)
    ensures |Story(r)| >= 3
    ensures Story(r)[..3] == [Title(r.name), Body(ContactLine(r.contact)), Spacer(12)]
  {
  }

  function HeadingIf(title: string, n: nat): seq<string>
  {
    if n == 0 then [] else [title]
  }

  /** Section `i` contributes its title as a heading exactly when
      `data.get(section_key)` is truthy, and its paragraphs as bodies. */
  lemma SectionTexts(r: Resume, i: nat)
    requires i < |Sections|
    ensures Headings(SectionAt(r, i)) == HeadingIf(Sections[i].0, SectionSize(r, Sections[i].1))
    ensures Bodies(SectionAt(r, i)) == Paragraphs(r, Sections[i].1)
  {
    var ps := Paragraphs(r, Sections[i].1);
    assert |ps| == SectionSize(r, Sections[i].1);
    SectionBlocksTexts(Sections[i].0, ps);
  }

  /** The headings of the story are those of its three sections. */
  lemma StorySectionHeadings(r: Resume)
    ensures Headings(Story(r)) == Headings(SectionAt(r, 0)) + Headings(SectionAt(r, 1)) + Headings(SectionAt(r, 2))
  {
    var o, w, d, s := Opening(r), SectionAt(r, 0), SectionAt(r, 1), SectionAt(r, 2);
    StoryParts(r);
    HeadingsConcat(o + w + d, s);
    HeadingsConcat(o + w, d);
    HeadingsConcat(o, w);
    OpeningTexts(r);
  }

  /** The section headings of the story are those of the non-empty sections,
      in the fixed order Work Experience, Education, Skills. */
  lemma StoryHeadings(r: Resume)
    ensures Headings(Story(r)) ==
      HeadingIf("Work Experience", |r.workExperience|) + HeadingIf("Education", |r.education|)
      + HeadingIf("Skills", |r.skills|)
  {
    StorySectionHeadings(r);
    SectionsTable();
    SectionTexts(r, 0);
    SectionTexts(r, 1);
    SectionTexts(r, 2);
  }

  /** Paragraph `j` of each section is the text of entry `j`; a skill's is
      `"• " + skill`. */
  lemma ParagraphTexts(r: Resume)
    ensures forall j | 0 <= j < |r.workExperience| :: Paragraphs(r, WorkExperience)[j] == EntryText(r.workExperience[j])
    ensures forall j | 0 <= j < |r.education| :: Paragraphs(r, Education)[j] == EntryText(r.education[j])
    ensures forall j | 0 <= j < |r.skills| :: Paragraphs(r, Skills)[j] == "\U{2022} " + r.skills[j]
  {
  }

  /** The body paragraphs of the story are the contact line followed by one
      paragraph per entry, section by section, each section in entry order. */
  lemma StoryBodies(r: Resume)
    ensures Bodies(Story(r)) ==
      [ContactLine(r.contact)] + Paragraphs(r, WorkExperience) + Paragraphs(r, Education)
      + Paragraphs(r, Skills)
  {
    var o, w, d, s := Opening(r), SectionAt(r, 0), SectionAt(r, 1), SectionAt(r, 2);
    StoryParts(r);
    assert Bodies(Story(r)) == Bodies(o) + Bodies(w) + Bodies(d) + Bodies(s) by {
      BodiesConcat(o + w + d, s);
      BodiesConcat(o + w, d);
      BodiesConcat(o, w);
    }
    OpeningTexts(r);
    SectionsTable();
    SectionTexts(r, 0);
    SectionTexts(r, 1);
    SectionTexts(r, 2);
  }

  function SectionLength(n: nat): nat
  {
    if n == 0 then 0 else 2 * n + 2
  }

  /** Each non-empty section of n entries adds 2n + 2 blocks to the three
      opening blocks; an empty one adds none. */
  lemma StoryLength(r: Resume)
    ensures |Story(r)| ==
      3 + SectionLength(|r.workExperience|) + SectionLength(|r.education|) + SectionLength(|r.skills|)
  {
    StoryParts(r);
    SectionsTable();
    SectionAtLength(r, 0);
    SectionAtLength(r, 1);
    SectionAtLength(r, 2);
  }

  lemma SectionAtLength(r: Resume, i: nat)
    requires i < |Sections|
    ensures |SectionAt(r, i)| == SectionLength(SectionSize(r, Sections[i].1))
  {
    var texts := Paragraphs(r, Sections[i].1);
    assert |texts| == SectionSize(r, Sections[i].1);
    EntryBlocksAt(texts);
  }
}
