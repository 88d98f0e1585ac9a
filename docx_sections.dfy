/**
 * The server's DOCX export: a document header followed by the paragraphs built section
 * by section from the schema-typed resume (`generateAllDocxSections`).
 */
module DocxSections {
  import opened Wrappers
  import opened Seqs
  import opened Text

  datatype HeadingLevel = Title | Heading1 | Heading2

  /** A text run; `size` is in half-points. */
  datatype TextRun = TextRun(text: string, bold: bool, italics: bool, size: Option<nat>)

  /** A paragraph: either plain text (possibly a heading) or a list of runs. */
  datatype Paragraph =
    | Text(text: string, heading: Option<HeadingLevel>, centered: bool)
    | Runs(runs: seq<TextRun>, centered: bool)

  function Heading(title: string): Paragraph {
    Text(title, Some(Heading1), false)
  }

  function Plain(text: string): Paragraph {
    Text(text, None, false)
  }

  /** The empty paragraph used for spacing. */
  const Spacing: Paragraph := Plain("")

  function Bold(text: string, size: Option<nat>): TextRun {
    TextRun(text, true, false, size)
  }

  function Italic(text: string): TextRun {
    TextRun(text, false, true, None)
  }

  function Normal(text: string, size: Option<nat>): TextRun {
    TextRun(text, false, false, size)
  }

  /** An item of a list section: its `visible` flag and its string fields (a missing field reads as ""). */
  datatype Item = Item(visible: bool, fields: map<string, string>)

  function Field(item: Item, key: string): string {
    if key in item.fields then item.fields[key] else ""
  }

  /** `item[key] ? prefix + item[key] + suffix : ""`. */
  function Affixed(item: Item, key: string, prefix: string, suffix: string): string {
    if Field(item, key) != "" then prefix + Field(item, key) + suffix else ""
  }

  /** The summary paragraph when the item has one, then the spacing paragraph. */
  function SummaryThenSpacing(item: Item): seq<Paragraph> {
    (if Field(item, "summary") != "" then [Plain(Field(item, "summary"))] else []) + [Spacing]
  }

  function ExperienceItem(exp: Item): seq<Paragraph> {
    [ Runs([Bold(Field(exp, "position"), Some(24)), Normal(" at " + Field(exp, "company"), Some(24))], false),
      Runs([Italic(Field(exp, "date")), Normal(Affixed(exp, "location", " | ", ""), None)], false) ]
    + SummaryThenSpacing(exp)
  }

  function EducationItem(edu: Item): seq<Paragraph> {
    [ Runs([Bold(Field(edu, "area"), Some(24)), Normal(" at " + Field(edu, "institution"), Some(24))], false),
      Runs([Italic(Field(edu, "date")), Normal(Affixed(edu, "score", " | ", ""), None)], false) ]
    + SummaryThenSpacing(edu)
  }

  function LanguageItem(lang: Item): seq<Paragraph> {
    [ Runs([Bold(Field(lang, "name"), None), Normal(Affixed(lang, "level", " - ", ""), None)], false) ]
  }

  function ProjectItem(project: Item): seq<Paragraph> {
    [ Runs([Bold(Field(project, "name"), Some(24)), Normal(Affixed(project, "url", " (", ")"), None)], false),
      Runs([Italic(Field(project, "date"))], false) ]
    + SummaryThenSpacing(project)
  }

  /** Awards, certifications, publications and volunteering: a titled line, a date line, the summary. */
  function DatedItem(item: Item, titleKey: string, detailKey: string, detailPrefix: string): seq<Paragraph> {
    [ Runs([Bold(Field(item, titleKey), None), Normal(Affixed(item, detailKey, detailPrefix, ""), None)], false),
      Runs([Italic(Field(item, "date"))], false) ]
    + SummaryThenSpacing(item)
  }

  function AwardItem(award: Item): seq<Paragraph> { DatedItem(award, "title", "awarder", " - ") }
  function CertificationItem(cert: Item): seq<Paragraph> { DatedItem(cert, "name", "issuer", " - ") }
  function PublicationItem(pub: Item): seq<Paragraph> { DatedItem(pub, "name", "publisher", " - ") }
  function VolunteerItem(vol: Item): seq<Paragraph> { DatedItem(vol, "position", "organization", " at ") }

  function ReferenceItem(ref: Item): seq<Paragraph> {
    [ Runs([Bold(Field(ref, "name"), None), Normal(Affixed(ref, "description", " - ", ""), None)], false) ]
    + (if Field(ref, "url") != "" then [Runs([Normal(Field(ref, "url"), None)], false)] else [])
    + SummaryThenSpacing(ref)
  }

  function CustomItem(item: Item): seq<Paragraph> {
    [ Runs([Bold(Field(item, "name"), None), Normal(Affixed(item, "description", " - ", ""), None)], false) ]
    + (if Field(item, "date") != "" then [Runs([Italic(Field(item, "date"))], false)] else [])
    + SummaryThenSpacing(item)
  }

  predicate Visible(item: Item) {
    item.visible
  }

  /** The paragraphs of the visible items, in order. */
  function VisibleParagraphs(items: seq<Item>, render: Item -> seq<Paragraph>): seq<Paragraph> {
    Concat(Map(render, Filter(Visible, items)))
  }

  /** A list section: its heading when it has any items at all, then each visible item's paragraphs. */
  function ItemsSection(title: string, items: seq<Item>, render: Item -> seq<Paragraph>): seq<Paragraph> {
    if |items| == 0 then [] else [Heading(title)] + VisibleParagraphs(items, render)
  }

  /** Skills and interests: the visible names joined by ", " in one paragraph. */
  function NamesSection(title: string, items: seq<Item>): seq<Paragraph> {
    if |items| == 0 then []
    else [Heading(title), Plain(Join(Map((i: Item) => Field(i, "name"), Filter(Visible, items)), ", ")), Spacing]
  }

  /** Languages: one line per visible language and a single spacing paragraph after them. */
  function LanguagesSection(items: seq<Item>): seq<Paragraph> {
    if |items| == 0 then [] else [Heading("Languages")] + VisibleParagraphs(items, LanguageItem) + [Spacing]
  }

  datatype CustomSection = CustomSection(name: Option<string>, items: Option<seq<Item>>)

  /** A custom section with items is headed by its `name ?? key` (an empty name stays empty). */
  function CustomSectionParagraphs(key: string, section: CustomSection): seq<Paragraph> {
    if section.items.None? || |section.items.value| == 0 then []
    else [Heading(section.name.GetOr(key))] + VisibleParagraphs(section.items.value, CustomItem)
  }

  function CustomSections(entries: seq<(string, CustomSection)>): seq<Paragraph>
    decreases |entries|
  {
    if entries == [] then []
    else
      var last := entries[|entries| - 1];
      CustomSections(entries[..|entries| - 1]) + CustomSectionParagraphs(last.0, last.1)
  }

  datatype Sections = Sections(
    summary: string,
    experience: seq<Item>, education: seq<Item>, skills: seq<Item>, languages: seq<Item>,
    projects: seq<Item>, awards: seq<Item>, certifications: seq<Item>, publications: seq<Item>,
    volunteer: seq<Item>, interests: seq<Item>, references: seq<Item>,
    custom: seq<(string, CustomSection)>)

  function SummarySection(content: string): seq<Paragraph> {
    if content != "" then [Heading("Summary"), Plain(content), Spacing] else []
  }

  /** The paragraphs of `generateAllDocxSections`, section after section in the fixed order. */
  function AllSections(s: Sections): seq<Paragraph> {
    SummarySection(s.summary)
    + ItemsSection("Experience", s.experience, ExperienceItem)
    + ItemsSection("Education", s.education, EducationItem)
    + NamesSection("Skills", s.skills)
    + LanguagesSection(s.languages)
    + ItemsSection("Projects", s.projects, ProjectItem)
    + ItemsSection("Awards", s.awards, AwardItem)
    + ItemsSection("Certifications", s.certifications, CertificationItem)
    + ItemsSection("Publications", s.publications, PublicationItem)
    + ItemsSection("Volunteer Experience", s.volunteer, VolunteerItem)
    + NamesSection("Interests", s.interests)
    + ItemsSection("References", s.references, ReferenceItem)
    + CustomSections(s.custom)
  }

  // ---------------------------------------------------------------------------------
  // Headings

  /** The texts of the level-1 headings among `ps`, in order. */
  function Headings(ps: seq<Paragraph>): seq<string>
    decreases |ps|
  {
    if ps == [] then []
    else
      var last := ps[|ps| - 1];
      Headings(ps[..|ps| - 1]) + (if last.Text? && last.heading == Some(Heading1) then [last.text] else [])
  }

  lemma {:induction false} HeadingsAppend(a: seq<Paragraph>, b: seq<Paragraph>)
    ensures Headings(a + b) == Headings(a) + Headings(b)
    decreases |b|
  {
    if b == [] {
      assert a + b == a;
    } else {
      HeadingsAppend(a, b[..|b| - 1]);
      assert (a + b)[..|a + b| - 1] == a + b[..|b| - 1];
    }
  }

  predicate NoHeading(ps: seq<Paragraph>) {
    forall i :: 0 <= i < |ps| ==> !(ps[i].Text? && ps[i].heading == Some(Heading1))
  }

  lemma {:induction false} NoHeadingHeadings(ps: seq<Paragraph>)
    requires NoHeading(ps)
    ensures Headings(ps) == []
    decreases |ps|
  {
    if ps != [] {
      NoHeadingHeadings(ps[..|ps| - 1]);
    }
  }

  lemma {:induction false} ConcatNoHeading(pss: seq<seq<Paragraph>>)
    requires forall i :: 0 <= i < |pss| ==> NoHeading(pss[i])
    ensures NoHeading(Concat(pss))
    decreases |pss|
  {
    if pss != [] {
      ConcatNoHeading(pss[..|pss| - 1]);
    }
  }

  /** Items of any kind render without headings. */
  lemma ItemsHaveNoHeading(render: Item -> seq<Paragraph>, items: seq<Item>)
    requires forall it: Item :: NoHeading(render(it))
    ensures Headings(Concat(Map(render, items))) == []
  {
    ConcatNoHeading(Map(render, items));
    NoHeadingHeadings(Concat(Map(render, items)));
  }

  lemma RenderersHaveNoHeading()
    ensures forall it: Item :: NoHeading(ExperienceItem(it)) && NoHeading(EducationItem(it))
    ensures forall it: Item :: NoHeading(LanguageItem(it)) && NoHeading(ProjectItem(it))
    ensures forall it: Item :: NoHeading(AwardItem(it)) && NoHeading(CertificationItem(it))
    ensures forall it: Item :: NoHeading(PublicationItem(it)) && NoHeading(VolunteerItem(it))
    ensures forall it: Item :: NoHeading(ReferenceItem(it)) && NoHeading(CustomItem(it))
  {
  }

  /** A list section contributes its title as its only heading iff it has items. */
  lemma ItemsSectionHeadings(title: string, items: seq<Item>, render: Item -> seq<Paragraph>)
    requires forall it: Item :: NoHeading(render(it))
    ensures Headings(ItemsSection(title, items, render)) == (if |items| > 0 then [title] else [])
  {
    if |items| > 0 {
      ItemsHaveNoHeading(render, Filter(Visible, items));
      HeadingsAppend([Heading(title)], VisibleParagraphs(items, render));
      assert Headings([Heading(title)]) == [title] by {
        assert [Heading(title)][..0] == [];
      }
    }
  }

  function TitleIf(nonEmpty: bool, title: string): seq<string> {
    if nonEmpty then [title] else []
  }

  function CustomTitles(entries: seq<(string, CustomSection)>): seq<string>
    decreases |entries|
  {
    if entries == [] then []
    else
      var last := entries[|entries| - 1];
      CustomTitles(entries[..|entries| - 1])
      + TitleIf(last.1.items.Some? && |last.1.items.value| > 0, last.1.name.GetOr(last.0))
  }

  /** The section titles a resume is expected to show: every section that has any item (or summary text). */
  function SectionTitles(s: Sections): seq<string> {
    TitleIf(s.summary != "", "Summary")
    + TitleIf(|s.experience| > 0, "Experience")
    + TitleIf(|s.education| > 0, "Education")
    + TitleIf(|s.skills| > 0, "Skills")
    + TitleIf(|s.languages| > 0, "Languages")
    + TitleIf(|s.projects| > 0, "Projects")
    + TitleIf(|s.awards| > 0, "Awards")
    + TitleIf(|s.certifications| > 0, "Certifications")
    + TitleIf(|s.publications| > 0, "Publications")
    + TitleIf(|s.volunteer| > 0, "Volunteer Experience")
    + TitleIf(|s.interests| > 0, "Interests")
    + TitleIf(|s.references| > 0, "References")
    + CustomTitles(s.custom)
  }

  lemma SingleHeading(title: string, rest: seq<Paragraph>)
    requires NoHeading(rest)
    ensures Headings([Heading(title)] + rest) == [title]
  {
    HeadingsAppend([Heading(title)], rest);
    NoHeadingHeadings(rest);
    assert [Heading(title)][..0] == [];
  }

  lemma {:induction false} CustomHeadings(entries: seq<(string, CustomSection)>)
    ensures Headings(CustomSections(entries)) == CustomTitles(entries)
    decreases |entries|
  {
    if entries != [] {
      var init := entries[..|entries| - 1];
      var last := entries[|entries| - 1];
      CustomHeadings(init);
      HeadingsAppend(CustomSections(init), CustomSectionParagraphs(last.0, last.1));
      if last.1.items.Some? && |last.1.items.value| > 0 {
        RenderersHaveNoHeading();
        ConcatNoHeading(Map(CustomItem, Filter(Visible, last.1.items.value)));
        SingleHeading(last.1.name.GetOr(last.0), VisibleParagraphs(last.1.items.value, CustomItem));
      }
    }
  }

  /**
   * The level-1 headings of the export are exactly the titles of the sections that have
   * items, in the fixed section order, custom sections last: a section whose items are
   * all hidden still gets its heading, and an empty one gets none.
   */
  lemma HeadingsAreSectionTitles(s: Sections)
    ensures Headings(AllSections(s)) == SectionTitles(s)
  {
    var p0 := SummarySection(s.summary);
    var p1 := p0 + ItemsSection("Experience", s.experience, ExperienceItem);
    var p2 := p1 + ItemsSection("Education", s.education, EducationItem);
    var p3 := p2 + NamesSection("Skills", s.skills);
    var p4 := p3 + LanguagesSection(s.languages);
    var p5 := p4 + ItemsSection("Projects", s.projects, ProjectItem);
    var p6 := p5 + ItemsSection("Awards", s.awards, AwardItem);
    var p7 := p6 + ItemsSection("Certifications", s.certifications, CertificationItem);
    var p8 := p7 + ItemsSection("Publications", s.publications, PublicationItem);
    var p9 := p8 + ItemsSection("Volunteer Experience", s.volunteer, VolunteerItem);
    var p10 := p9 + NamesSection("Interests", s.interests);
    var p11 := p10 + ItemsSection("References", s.references, ReferenceItem);
    var p12 := p11 + CustomSections(s.custom);
    RenderersHaveNoHeading();
    SummaryHeadings(s.summary);
    ItemsSectionHeadings("Experience", s.experience, ExperienceItem);
    HeadingsAppend(p0, ItemsSection("Experience", s.experience, ExperienceItem));
    ItemsSectionHeadings("Education", s.education, EducationItem);
    HeadingsAppend(p1, ItemsSection("Education", s.education, EducationItem));
    NamesHeadings("Skills", s.skills);
    HeadingsAppend(p2, NamesSection("Skills", s.skills));
    LanguagesHeadings(s.languages);
    HeadingsAppend(p3, LanguagesSection(s.languages));
    ItemsSectionHeadings("Projects", s.projects, ProjectItem);
    HeadingsAppend(p4, ItemsSection("Projects", s.projects, ProjectItem));
    ItemsSectionHeadings("Awards", s.awards, AwardItem);
    HeadingsAppend(p5, ItemsSection("Awards", s.awards, AwardItem));
    ItemsSectionHeadings("Certifications", s.certifications, CertificationItem);
    HeadingsAppend(p6, ItemsSection("Certifications", s.certifications, CertificationItem));
    ItemsSectionHeadings("Publications", s.publications, PublicationItem);
    HeadingsAppend(p7, ItemsSection("Publications", s.publications, PublicationItem));
    ItemsSectionHeadings("Volunteer Experience", s.volunteer, VolunteerItem);
    HeadingsAppend(p8, ItemsSection("Volunteer Experience", s.volunteer, VolunteerItem));
    NamesHeadings("Interests", s.interests);
    HeadingsAppend(p9, NamesSection("Interests", s.interests));
    ItemsSectionHeadings("References", s.references, ReferenceItem);
    HeadingsAppend(p10, ItemsSection("References", s.references, ReferenceItem));
    CustomHeadings(s.custom);
    HeadingsAppend(p11, CustomSections(s.custom));
  }

  lemma SummaryHeadings(content: string)
    ensures Headings(SummarySection(content)) == TitleIf(content != "", "Summary")
  {
    if content != "" {
      SingleHeading("Summary", [Plain(content), Spacing]);
      assert SummarySection(content) == [Heading("Summary")] + [Plain(content), Spacing];
    }
  }

  lemma NamesHeadings(title: string, items: seq<Item>)
    ensures Headings(NamesSection(title, items)) == TitleIf(|items| > 0, title)
  {
    if |items| > 0 {
      var line := Plain(Join(Map((it: Item) => Field(it, "name"), Filter(Visible, items)), ", "));
      SingleHeading(title, [line, Spacing]);
      assert NamesSection(title, items) == [Heading(title)] + [line, Spacing];
    }
  }

  lemma LanguagesHeadings(items: seq<Item>)
    ensures Headings(LanguagesSection(items)) == TitleIf(|items| > 0, "Languages")
  {
    if |items| > 0 {
      RenderersHaveNoHeading();
      var body := VisibleParagraphs(items, LanguageItem);
      ConcatNoHeading(Map(LanguageItem, Filter(Visible, items)));
      SingleHeading("Languages", body + [Spacing]);
      assert [Heading("Languages")] + body + [Spacing] == [Heading("Languages")] + (body + [Spacing]);
    }
  }

  // ---------------------------------------------------------------------------------
  // Visibility

  /** Hidden items contribute nothing: two non-empty lists with the same visible items render alike. */
  lemma HiddenItemsIgnored(title: string, a: seq<Item>, b: seq<Item>, render: Item -> seq<Paragraph>)
    requires |a| > 0 && |b| > 0 && Filter(Visible, a) == Filter(Visible, b)
    ensures ItemsSection(title, a, render) == ItemsSection(title, b, render)
  {
  }

  /** A section whose items are all hidden still shows its heading, with nothing under it. */
  lemma AllHiddenKeepsHeading(title: string, items: seq<Item>, render: Item -> seq<Paragraph>)
    requires |items| > 0 && forall i :: 0 <= i < |items| ==> !items[i].visible
    ensures ItemsSection(title, items, render) == [Heading(title)]
  {
    FilterNone(Visible, items);
  }

  /** Every visible skill's name appears in the skills paragraph. */
  lemma SkillsListVisibleNames(items: seq<Item>, k: nat)
    requires k < |items| && items[k].visible
    ensures Contains(NamesSection("Skills", items)[1].text, Field(items[k], "name"))
  {
    var names := Map((i: Item) => Field(i, "name"), Filter(Visible, items));
    FilterKeeps(Visible, items, k);
    var j :| 0 <= j < |Filter(Visible, items)| && Filter(Visible, items)[j] == items[k];
    JoinContains(names, ", ", j);
  }

  lemma {:induction false} JoinContains(parts: seq<string>, sep: string, j: nat)
    requires j < |parts|
    ensures Contains(Join(parts, sep), parts[j])
    decreases |parts|
  {
    if |parts| == 1 {
      PrefixContains(parts[0], parts[0]);
    } else if j == 0 {
      PrefixContains(parts[0], parts[0]);
      ContainsExtend(parts[0], parts[0], [], sep + Join(parts[1..], sep));
      assert [] + parts[0] + (sep + Join(parts[1..], sep)) == Join(parts, sep);
    } else {
      JoinContains(parts[1..], sep, j - 1);
      ContainsExtend(Join(parts[1..], sep), parts[j], parts[0] + sep, []);
      assert parts[0] + sep + Join(parts[1..], sep) + [] == Join(parts, sep);
    }
  }

  /** A custom section's heading is its name when it has one, even an empty one, and its key otherwise. */
  lemma CustomHeadingChoice(key: string, item: Item)
    ensures CustomSectionParagraphs(key, CustomSection(None, Some([item])))[0] == Heading(key)
    ensures CustomSectionParagraphs(key, CustomSection(Some(""), Some([item])))[0] == Heading("")
    ensures CustomSectionParagraphs(key, CustomSection(Some("Talks"), Some([]))) == []
  {
  }

  // ---------------------------------------------------------------------------------
  // The builder loops

  /** Extending the item list by one item extends the paragraphs by that item's, if visible. */
  lemma VisibleParagraphsStep(items: seq<Item>, i: nat, render: Item -> seq<Paragraph>)
    requires i < |items|
    ensures VisibleParagraphs(items[..i + 1], render)
         == VisibleParagraphs(items[..i], render) + (if items[i].visible then render(items[i]) else [])
  {
    var vis := Filter(Visible, items[..i]);
    assert items[..i + 1] == items[..i] + [items[i]];
    FilterAppend(Visible, items[..i], [items[i]]);
    if items[i].visible {
      assert Filter(Visible, [items[i]]) == [items[i]];
      assert Map(render, vis + [items[i]]) == Map(render, vis) + [render(items[i])];
    } else {
      assert Filter(Visible, [items[i]]) == [];
      assert vis + [] == vis;
    }
  }

  /** One item loop: every visible item's paragraphs are pushed, in order. */
  method PushItems(sections: seq<Paragraph>, items: seq<Item>, render: Item -> seq<Paragraph>) returns (r: seq<Paragraph>)
    ensures r == sections + VisibleParagraphs(items, render)
  {
    r := sections;
    var i := 0;
    while i < |items|
      invariant 0 <= i <= |items|
      invariant r == sections + VisibleParagraphs(items[..i], render)
    {
      VisibleParagraphsStep(items, i, render);
      if items[i].visible {
        r := r + render(items[i]);
      }
      i := i + 1;
    }
    assert items[..|items|] == items;
  }

  method PushItemsSection(sections: seq<Paragraph>, title: string, items: seq<Item>, render: Item -> seq<Paragraph>)
    returns (r: seq<Paragraph>)
    ensures r == sections + ItemsSection(title, items, render)
  {
    r := sections;
    if |items| > 0 {
      r := r + [Heading(title)];
      r := PushItems(r, items, render);
    }
  }

  lemma CustomSectionsStep(sections: seq<Paragraph>, entries: seq<(string, CustomSection)>, i: nat, before: seq<Paragraph>, after: seq<Paragraph>)
    requires i < |entries|
    requires before == sections + CustomSections(entries[..i])
    requires after == before + CustomSectionParagraphs(entries[i].0, entries[i].1)
    ensures after == sections + CustomSections(entries[..i + 1])
  {
    assert entries[..i + 1][..i] == entries[..i];
    AppendAssoc(sections, CustomSections(entries[..i]), CustomSectionParagraphs(entries[i].0, entries[i].1));
  }

  /** The loop over `Object.entries(custom)`. */
  method PushCustomSections(sections: seq<Paragraph>, entries: seq<(string, CustomSection)>) returns (r: seq<Paragraph>)
    ensures r == sections + CustomSections(entries)
  {
    r := sections;
    var i := 0;
    while i < |entries|
      invariant 0 <= i <= |entries|
      invariant r == sections + CustomSections(entries[..i])
    {
      var key := entries[i].0;
      var section := entries[i].1;
      ghost var before := r;
      if section.items.Some? && |section.items.value| > 0 {
        r := r + [Heading(section.name.GetOr(key))];
        r := PushItems(r, section.items.value, CustomItem);
        AppendAssoc(before, [Heading(section.name.GetOr(key))], VisibleParagraphs(section.items.value, CustomItem));
      }
      CustomSectionsStep(sections, entries, i, before, r);
      i := i + 1;
    }
    assert entries[..|entries|] == entries;
  }

  /** `generateAllDocxSections`. */
  method GenerateAllDocxSections(s: Sections) returns (sections: seq<Paragraph>)
    ensures sections == AllSections(s)
  {
    sections := [];
    if s.summary != "" {
      sections := sections + [Heading("Summary"), Plain(s.summary), Spacing];
    }
    assert sections == SummarySection(s.summary);
    sections := PushItemsSection(sections, "Experience", s.experience, ExperienceItem);
    sections := PushItemsSection(sections, "Education", s.education, EducationItem);
    sections := PushNames(sections, "Skills", s.skills);
    sections := PushLanguages(sections, s.languages);
    sections := PushItemsSection(sections, "Projects", s.projects, ProjectItem);
    sections := PushItemsSection(sections, "Awards", s.awards, AwardItem);
    sections := PushItemsSection(sections, "Certifications", s.certifications, CertificationItem);
    sections := PushItemsSection(sections, "Publications", s.publications, PublicationItem);
    sections := PushItemsSection(sections, "Volunteer Experience", s.volunteer, VolunteerItem);
    sections := PushNames(sections, "Interests", s.interests);
    sections := PushItemsSection(sections, "References", s.references, ReferenceItem);
    sections := PushCustomSections(sections, s.custom);
  }

  /** Skills and interests: filter, map and join, then push with a spacing paragraph. */
  method PushNames(sections: seq<Paragraph>, title: string, items: seq<Item>) returns (r: seq<Paragraph>)
    ensures r == sections + NamesSection(title, items)
  {
    r := sections;
    if |items| > 0 {
      r := r + [Heading(title)];
      var names := Join(Map((it: Item) => Field(it, "name"), Filter(Visible, items)), ", ");
      r := r + [Plain(names), Spacing];
    }
  }

  method PushLanguages(sections: seq<Paragraph>, items: seq<Item>) returns (r: seq<Paragraph>)
    ensures r == sections + LanguagesSection(items)
  {
    r := sections;
    if |items| > 0 {
      r := r + [Heading("Languages")];
      r := PushItems(r, items, LanguageItem);
      r := r + [Spacing];
    }
  }

  // ---------------------------------------------------------------------------------
  // The document

  datatype Basics = Basics(name: string, headline: string, email: string, phone: string, location: string)

  /** The three centred header paragraphs: name (or "Resume"), headline, contact line. */
  function Header(b: Basics): seq<Paragraph> {
    [ Text(if b.name != "" then b.name else "Resume", Some(Title), true),
      Text(b.headline, Some(Heading2), true),
      Runs([Normal("Email: ", None), Bold(b.email, None), Normal(" | Phone: ", None), Bold(b.phone, None),
            Normal(" | Location: ", None), Bold(b.location, None)], true) ]
  }

  const DocxContentType: string := "application/vnd.openxmlformats-officedocument.wordprocessingml.document"

  datatype DocxFailure = InvalidResumeData | UploadFailed

  /**
   * `generateDocx`: without a layout it fails before building anything; otherwise the
   * document is the header followed by the sections, uploaded as `<title>.docx`.
   */
  function GenerateDocx(hasLayout: bool, basics: Basics, s: Sections, title: string,
                        upload: (seq<Paragraph>, string, string) -> Option<string>): (r: Result<string, DocxFailure>)
    ensures !hasLayout ==> r == Err(InvalidResumeData)
    ensures hasLayout ==> (r.Ok? <==> upload(Header(basics) + AllSections(s), title + ".docx", DocxContentType).Some?)
  {
    if !hasLayout then Err(InvalidResumeData)
    else match upload(Header(basics) + AllSections(s), title + ".docx", DocxContentType)
      case None => Err(UploadFailed)
      case Some(url) => Ok(url)
  }

  /** The document's first paragraph is the title, "Resume" for a nameless resume, and section headings follow the header. */
  lemma DocumentLayout(basics: Basics, s: Sections)
    ensures (Header(basics) + AllSections(s))[0] == Text(if basics.name == "" then "Resume" else basics.name, Some(Title), true)
    ensures Headings(Header(basics) + AllSections(s)) == SectionTitles(s)
  {
    HeadingsAppend(Header(basics), AllSections(s));
    NoHeadingHeadings(Header(basics));
    HeadingsAreSectionTitles(s);
  }
}
