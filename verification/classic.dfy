/** The classic template: serif, centred header with the bare contact values,
    upper-case section titles, the summary first and the certifications
    last. */
module ClassicTemplate {
  import opened Strings
  import opened Resume
  import opened Blocks
  import opened Layout
  import opened Sections

  /** The bullet glyph as the template's text holds it: the UTF-8 bytes of
      `•` read as Windows-1252, three characters. */
  const Marker: string := "\U{E2}\U{20AC}\U{A2}"

  const SummaryTitle: string := "PROFESSIONAL SUMMARY"
  const ExperienceTitle: string := "PROFESSIONAL EXPERIENCE"
  const EducationTitle: string := "EDUCATION"
  const SkillsTitle: string := "TECHNICAL SKILLS"
  const ProjectsTitle: string := "PROJECTS"
  const CertificationsTitle: string := "CERTIFICATIONS"
  const TechLabel: string := "Technologies: "

  // ---------------------------------------------------------------------
  // The certification entry, which only this template lays out this way.

  /** `{name} - {issuer}` on one line, the date, then the link if any. */
  function CertificationEntry(fmt: string -> string, c: Certification): seq<Block> {
    [Line(CertTitle, c.name + " - " + c.issuer)] + [Line(Issued, FormatDate(fmt, c.date))]
      + LinkLine(CertUrl, c.link)
  }

  lemma CertificationSelect(fmt: string -> string, c: Certification, k: Kind)
    ensures Select(CertificationEntry(fmt, c), k) ==
      if k == Lines(CertTitle) then [c.name + " - " + c.issuer]
      else if k == Lines(Issued) then [FormatDate(fmt, c.date)]
      else if k == Lines(CertUrl) then LinkLines(c.link)
      else []
  {
    LineSelect(CertTitle, c.name + " - " + c.issuer, k);
    LineSelect(Issued, FormatDate(fmt, c.date), k);
    LinkSelect(CertUrl, c.link, k);
    SelectParts3([Line(CertTitle, c.name + " - " + c.issuer)], [Line(Issued, FormatDate(fmt, c.date))],
      LinkLine(CertUrl, c.link), k);
  }

  function CertificationTexts(fmt: string -> string, xs: seq<Certification>, k: Kind): seq<string> {
    if k == Lines(CertTitle) then seq(|xs|, i requires 0 <= i < |xs| => xs[i].name + " - " + xs[i].issuer)
    else if k == Lines(Issued) then seq(|xs|, i requires 0 <= i < |xs| => FormatDate(fmt, xs[i].date))
    else if k == Lines(CertUrl) then Concat(xs, (c: Certification) => LinkLines(c.link))
    else []
  }

  lemma CertificationList(xs: seq<Certification>, fmt: string -> string, k: Kind)
    ensures Select(ListSection(CertificationsTitle, xs, CertificationItem(fmt)), k) ==
      TitleOf(xs, CertificationsTitle, k) + CertificationTexts(fmt, xs, k)
  {
    var f := CertificationItem(fmt);
    if k == Lines(CertTitle) {
      forall i: nat, x: Certification ensures Select(f(i, x), k) == [x.name + " - " + x.issuer] {
        CertificationSelect(fmt, x, k);
      }
      ListSingles(CertificationsTitle, xs, f, k, (x: Certification) => x.name + " - " + x.issuer);
    } else if k == Lines(Issued) {
      forall i: nat, x: Certification ensures Select(f(i, x), k) == [FormatDate(fmt, x.date)] {
        CertificationSelect(fmt, x, k);
      }
      ListSingles(CertificationsTitle, xs, f, k, (x: Certification) => FormatDate(fmt, x.date));
    } else if k == Lines(CertUrl) {
      forall i: nat, x: Certification ensures Select(f(i, x), k) == LinkLines(x.link) {
        CertificationSelect(fmt, x, k);
      }
      ListConcat(CertificationsTitle, xs, f, k, (c: Certification) => LinkLines(c.link));
    } else {
      forall i: nat, x: Certification ensures Select(f(i, x), k) == [] {
        CertificationSelect(fmt, x, k);
      }
      ListNone(CertificationsTitle, xs, f, k);
    }
  }

  // ---------------------------------------------------------------------
  // The page.

  function ExperienceItem(fmt: string -> string): (nat, Experience) -> seq<Block> {
    (i: nat, e: Experience) => ExperienceEntry(fmt, e, Marker)
  }

  function EducationItem(fmt: string -> string): (nat, Education) -> seq<Block> {
    (i: nat, e: Education) => InFieldEducation(fmt, e)
  }

  function SkillItem(): (nat, SkillCategory) -> seq<Block> {
    (i: nat, s: SkillCategory) => SkillLineEntry(s)
  }

  function ProjectItem(): (nat, Project) -> seq<Block> {
    (i: nat, p: Project) => ProjectEntry(p, TechLabel)
  }

  function CertificationItem(fmt: string -> string): (nat, Certification) -> seq<Block> {
    (i: nat, c: Certification) => CertificationEntry(fmt, c)
  }

  /** The page: header, summary, experience, education, skills, projects,
      certifications; every section but the header only when it has content. */
  function Render(fmt: string -> string, d: ResumeData): seq<Block> {
    Page([
      Header(d.personalInfo, Plain),
      SummarySection(SummaryTitle, d.personalInfo.summary),
      ListSection(ExperienceTitle, d.experience, ExperienceItem(fmt)),
      ListSection(EducationTitle, d.education, EducationItem(fmt)),
      ListSection(SkillsTitle, d.skills, SkillItem()),
      ListSection(ProjectsTitle, d.projects, ProjectItem()),
      ListSection(CertificationsTitle, d.certifications, CertificationItem(fmt))])
  }

  /** What the page shows of each kind, section by section. */
  function Shown(fmt: string -> string, d: ResumeData, k: Kind): seq<string> {
    HeaderTexts(d.personalInfo, Plain, k)
    + SummaryTexts(SummaryTitle, d.personalInfo.summary, k)
    + (TitleOf(d.experience, ExperienceTitle, k) + ExperienceTexts(fmt, Marker, d.experience, k))
    + (TitleOf(d.education, EducationTitle, k) + InFieldEducationTexts(fmt, d.education, k))
    + (TitleOf(d.skills, SkillsTitle, k) + SkillLineTexts(d.skills, k))
    + (TitleOf(d.projects, ProjectsTitle, k) + ProjectTexts(TechLabel, d.projects, k))
    + (TitleOf(d.certifications, CertificationsTitle, k) + CertificationTexts(fmt, d.certifications, k))
  }

  lemma RenderSelect(fmt: string -> string, d: ResumeData, k: Kind)
    ensures Select(Render(fmt, d), k) == Shown(fmt, d, k)
  {
    var p := d.personalInfo;
    PageSelect7(Header(p, Plain), SummarySection(SummaryTitle, p.summary),
      ListSection(ExperienceTitle, d.experience, ExperienceItem(fmt)),
      ListSection(EducationTitle, d.education, EducationItem(fmt)),
      ListSection(SkillsTitle, d.skills, SkillItem()),
      ListSection(ProjectsTitle, d.projects, ProjectItem()),
      ListSection(CertificationsTitle, d.certifications, CertificationItem(fmt)), k);
    HeaderSelect(p, Plain, k);
    SummarySelect(SummaryTitle, p.summary, k);
    ExperienceList(ExperienceTitle, d.experience, ExperienceItem(fmt), fmt, Marker, k);
    InFieldEducationList(EducationTitle, d.education, EducationItem(fmt), fmt, k);
    SkillLineList(SkillsTitle, d.skills, SkillItem(), k);
    ProjectList(ProjectsTitle, d.projects, ProjectItem(), TechLabel, k);
    CertificationList(d.certifications, fmt, k);
  }

  /** The section titles, in page order, of the sections that have content. */
  function Titles(d: ResumeData): seq<string> {
    (if d.personalInfo.summary != "" then [SummaryTitle] else [])
    + Titled(d.experience, ExperienceTitle) + Titled(d.education, EducationTitle)
    + Titled(d.skills, SkillsTitle) + Titled(d.projects, ProjectsTitle)
    + Titled(d.certifications, CertificationsTitle)
  }

  // Each property below is first worked out on `Shown`, then carried over to
  // the page by `RenderSelect`.

  lemma ShownName(fmt: string -> string, d: ResumeData)
    ensures Shown(fmt, d, Names) == [d.personalInfo.fullName]
  {
  }

  /** The full name heads the page, even when empty. */
  lemma ShowsName(fmt: string -> string, d: ResumeData)
    ensures Select(Render(fmt, d), Names) == [d.personalInfo.fullName]
  {
    RenderSelect(fmt, d, Names);
    ShownName(fmt, d);
  }

  lemma ShownTitles(fmt: string -> string, d: ResumeData)
    ensures Shown(fmt, d, Headings) == Titles(d)
  {
    var k := Headings;
    assert HeaderTexts(d.personalInfo, Plain, k) == [];
    assert ExperienceTexts(fmt, Marker, d.experience, k) == [];
    assert InFieldEducationTexts(fmt, d.education, k) == [];
    assert SkillLineTexts(d.skills, k) == [];
    assert ProjectTexts(TechLabel, d.projects, k) == [];
    assert CertificationTexts(fmt, d.certifications, k) == [];
  }

  /** The section titles are exactly those of the non-empty sections, in
      page order. */
  lemma ShowsTitles(fmt: string -> string, d: ResumeData)
    ensures Select(Render(fmt, d), Headings) == Titles(d)
  {
    RenderSelect(fmt, d, Headings);
    ShownTitles(fmt, d);
  }

  lemma ShownContact(fmt: string -> string, d: ResumeData, f: PersonalField)
    ensures Shown(fmt, d, Lines(Contact(f))) == ContactLines(d.personalInfo, Plain, f)
  {
    var k := Lines(Contact(f));
    assert SummaryTexts(SummaryTitle, d.personalInfo.summary, k) == [];
    assert ExperienceTexts(fmt, Marker, d.experience, k) == [];
    assert InFieldEducationTexts(fmt, d.education, k) == [];
    assert ProjectTexts(TechLabel, d.projects, k) == [];
    assert CertificationTexts(fmt, d.certifications, k) == [];
  }

  /** Each contact field is shown, bare, exactly when it is non-empty. */
  lemma ShowsContacts(fmt: string -> string, d: ResumeData)
    ensures forall f: PersonalField :: Select(Render(fmt, d), Lines(Contact(f))) == ContactLines(d.personalInfo, Plain, f)
  {
    forall f: PersonalField
      ensures Select(Render(fmt, d), Lines(Contact(f))) == ContactLines(d.personalInfo, Plain, f)
    {
      RenderSelect(fmt, d, Lines(Contact(f)));
      ShownContact(fmt, d, f);
    }
  }

  lemma ShownDescriptions(fmt: string -> string, d: ResumeData)
    ensures Shown(fmt, d, Bullets(Marker)) == Concat(d.experience, ExperienceLines)
  {
    var k := Bullets(Marker);
    assert HeaderTexts(d.personalInfo, Plain, k) == [];
    assert SummaryTexts(SummaryTitle, d.personalInfo.summary, k) == [];
    assert InFieldEducationTexts(fmt, d.education, k) == [];
    assert SkillLineTexts(d.skills, k) == [];
    assert ProjectTexts(TechLabel, d.projects, k) == [];
    assert CertificationTexts(fmt, d.certifications, k) == [];
  }

  /** Every line of every description becomes one bullet, in order. */
  lemma ShowsDescriptions(fmt: string -> string, d: ResumeData)
    ensures Select(Render(fmt, d), Bullets(Marker)) == Concat(d.experience, ExperienceLines)
  {
    RenderSelect(fmt, d, Bullets(Marker));
    ShownDescriptions(fmt, d);
  }

  lemma ShownGrades(fmt: string -> string, d: ResumeData)
    ensures Shown(fmt, d, Lines(Grade)) == Concat(d.education, GradeLines)
  {
  }

  /** A grade line appears for exactly the entries with a truthy `gpa`. */
  lemma ShowsGrades(fmt: string -> string, d: ResumeData)
    ensures Select(Render(fmt, d), Lines(Grade)) == Concat(d.education, GradeLines)
  {
    RenderSelect(fmt, d, Lines(Grade));
    ShownGrades(fmt, d);
  }

  lemma ShownSkills(fmt: string -> string, d: ResumeData)
    ensures Shown(fmt, d, Lines(SkillList)) == seq(|d.skills|, i requires 0 <= i < |d.skills| => SkillLine(d.skills[i]))
  {
  }

  /** One `category: items` line per skill category, empty items dropped. */
  lemma ShowsSkills(fmt: string -> string, d: ResumeData)
    ensures Select(Render(fmt, d), Lines(SkillList)) ==
      seq(|d.skills|, i requires 0 <= i < |d.skills| => SkillLine(d.skills[i]))
  {
    RenderSelect(fmt, d, Lines(SkillList));
    ShownSkills(fmt, d);
  }

  lemma ShownLinks(fmt: string -> string, d: ResumeData)
    ensures Shown(fmt, d, Lines(ProjectUrl)) == Concat(d.projects, (p: Project) => LinkLines(p.link))
    ensures Shown(fmt, d, Lines(CertUrl)) == Concat(d.certifications, (c: Certification) => LinkLines(c.link))
  {
    ShownProjectLinks(fmt, d);
    ShownCertificationLinks(fmt, d);
  }

  lemma ShownProjectLinks(fmt: string -> string, d: ResumeData)
    ensures Shown(fmt, d, Lines(ProjectUrl)) == Concat(d.projects, (p: Project) => LinkLines(p.link))
  {
    var k := Lines(ProjectUrl);
    assert HeaderTexts(d.personalInfo, Plain, k) == [];
    assert SummaryTexts(SummaryTitle, d.personalInfo.summary, k) == [];
    assert ExperienceTexts(fmt, Marker, d.experience, k) == [];
    assert InFieldEducationTexts(fmt, d.education, k) == [];
    assert SkillLineTexts(d.skills, k) == [];
    assert CertificationTexts(fmt, d.certifications, k) == [];
  }

  lemma ShownCertificationLinks(fmt: string -> string, d: ResumeData)
    ensures Shown(fmt, d, Lines(CertUrl)) == Concat(d.certifications, (c: Certification) => LinkLines(c.link))
  {
    var k := Lines(CertUrl);
    assert HeaderTexts(d.personalInfo, Plain, k) == [];
    assert SummaryTexts(SummaryTitle, d.personalInfo.summary, k) == [];
    assert ExperienceTexts(fmt, Marker, d.experience, k) == [];
    assert InFieldEducationTexts(fmt, d.education, k) == [];
    assert SkillLineTexts(d.skills, k) == [];
    assert ProjectTexts(TechLabel, d.projects, k) == [];
  }

  /** Project and certification links appear exactly when truthy. */
  lemma ShowsLinks(fmt: string -> string, d: ResumeData)
    ensures Select(Render(fmt, d), Lines(ProjectUrl)) == Concat(d.projects, (p: Project) => LinkLines(p.link))
    ensures Select(Render(fmt, d), Lines(CertUrl)) == Concat(d.certifications, (c: Certification) => LinkLines(c.link))
  {
    RenderSelect(fmt, d, Lines(ProjectUrl));
    RenderSelect(fmt, d, Lines(CertUrl));
    ShownLinks(fmt, d);
  }
}
