/** The modern template: a dark header whose contact values carry emoji,
    a timeline of experiences joined by connectors, skills as chips, and
    education and certifications before the projects. */
module ModernTemplate {
  import opened Strings
  import opened Resume
  import opened Blocks
  import opened Layout
  import opened Sections

  /** `▶` */
  const Marker: string := "\U{25B6}"

  const SummaryTitle: string := "About Me"
  const ExperienceTitle: string := "Experience"
  const SkillsTitle: string := "Skills"
  const EducationTitle: string := "Education"
  const CertificationsTitle: string := "Certifications"
  const ProjectsTitle: string := "Projects"
  const TechLabel: string := "Tech: "

  /** 📧, 📱, 📍, 💼 and 🌐, each followed by a space. */
  function Tag(f: PersonalField): string {
    match f
    case Email => "\U{1F4E7} "
    case Phone => "\U{1F4F1} "
    case Location => "\U{1F4CD} "
    case LinkedIn => "\U{1F4BC} "
    case Website => "\U{1F310} "
    case _ => ""
  }

  // ---------------------------------------------------------------------
  // The timeline: every experience but the first is joined to the one
  // before it by a connector.

  function ExperienceItem(fmt: string -> string): (nat, Experience) -> seq<Block> {
    (i: nat, e: Experience) => Opt(i > 0, Connector) + ExperienceEntry(fmt, e, Marker)
  }

  /** Apart from connectors, an experience shows what the shared entry shows. */
  lemma ItemSelect(fmt: string -> string, i: nat, e: Experience, k: Kind)
    requires k != Connectors
    ensures Select(ExperienceItem(fmt)(i, e), k) == Select(ExperienceEntry(fmt, e, Marker), k)
  {
    OptSelect(i > 0, Connector, k);
    PrefixSelect(Opt(i > 0, Connector), ExperienceEntry(fmt, e, Marker), k);
  }

  /** Entry `i` holds one connector exactly when it is not the first. */
  lemma ItemConnectors(fmt: string -> string, i: nat, e: Experience)
    ensures |Select(ExperienceItem(fmt)(i, e), Connectors)| == if i > 0 then 1 else 0
  {
    OptSelect(i > 0, Connector, Connectors);
    ExperienceSelect(fmt, e, Marker, Connectors);
    SelectAppend(Opt(i > 0, Connector), ExperienceEntry(fmt, e, Marker), Connectors);
  }

  /** A list of `n` entries holds `n - 1` connectors. */
  lemma TimelineConnectors(fmt: string -> string, xs: seq<Experience>)
    ensures |Select(ListSection(ExperienceTitle, xs, ExperienceItem(fmt)), Connectors)| ==
      if |xs| > 0 then |xs| - 1 else 0
  {
    var f := ExperienceItem(fmt);
    forall i: nat, x: Experience ensures |Select(f(i, x), Connectors)| == if i > 0 then 1 else 0 {
      ItemConnectors(fmt, i, x);
    }
    EachCountNotFirst(xs, f, Connectors);
    SectionSelect(|xs| > 0, ExperienceTitle, Each(xs, f), Connectors);
  }

  // ---------------------------------------------------------------------
  // The page.

  function SkillItem(): (nat, SkillCategory) -> seq<Block> {
    (i: nat, s: SkillCategory) => ChipSkills(s)
  }

  function EducationItem(fmt: string -> string): (nat, Education) -> seq<Block> {
    (i: nat, e: Education) => StackedEducation(fmt, e, true)
  }

  function CertificationItem(fmt: string -> string): (nat, Certification) -> seq<Block> {
    (i: nat, c: Certification) => StackedCertification(fmt, c)
  }

  function ProjectItem(): (nat, Project) -> seq<Block> {
    (i: nat, p: Project) => ProjectEntry(p, TechLabel)
  }

  /** The page: header, summary, experience, skills, education,
      certifications, projects; every section but the header only when it
      has content. */
  function Render(fmt: string -> string, d: ResumeData): seq<Block> {
    Page([
      Header(d.personalInfo, Tag),
      SummarySection(SummaryTitle, d.personalInfo.summary),
      ListSection(ExperienceTitle, d.experience, ExperienceItem(fmt)),
      ListSection(SkillsTitle, d.skills, SkillItem()),
      ListSection(EducationTitle, d.education, EducationItem(fmt)),
      ListSection(CertificationsTitle, d.certifications, CertificationItem(fmt)),
      ListSection(ProjectsTitle, d.projects, ProjectItem())])
  }

  /** What the page shows of each kind other than connectors, section by
      section. */
  function Shown(fmt: string -> string, d: ResumeData, k: Kind): seq<string> {
    HeaderTexts(d.personalInfo, Tag, k)
    + SummaryTexts(SummaryTitle, d.personalInfo.summary, k)
    + (TitleOf(d.experience, ExperienceTitle, k) + ExperienceTexts(fmt, Marker, d.experience, k))
    + (TitleOf(d.skills, SkillsTitle, k) + ChipSkillsTexts(d.skills, k))
    + (TitleOf(d.education, EducationTitle, k) + StackedEducationTexts(fmt, d.education, k))
    + (TitleOf(d.certifications, CertificationsTitle, k) + StackedCertificationTexts(fmt, d.certifications, k))
    + (TitleOf(d.projects, ProjectsTitle, k) + ProjectTexts(TechLabel, d.projects, k))
  }

  lemma RenderSelect(fmt: string -> string, d: ResumeData, k: Kind)
    requires k != Connectors
    ensures Select(Render(fmt, d), k) == Shown(fmt, d, k)
  {
    var p := d.personalInfo;
    PageSelect7(Header(p, Tag), SummarySection(SummaryTitle, p.summary),
      ListSection(ExperienceTitle, d.experience, ExperienceItem(fmt)),
      ListSection(SkillsTitle, d.skills, SkillItem()),
      ListSection(EducationTitle, d.education, EducationItem(fmt)),
      ListSection(CertificationsTitle, d.certifications, CertificationItem(fmt)),
      ListSection(ProjectsTitle, d.projects, ProjectItem()), k);
    HeaderSelect(p, Tag, k);
    SummarySelect(SummaryTitle, p.summary, k);
    forall i: nat, x: Experience
      ensures Select(ExperienceItem(fmt)(i, x), k) == Select(ExperienceEntry(fmt, x, Marker), k)
    {
      ItemSelect(fmt, i, x, k);
    }
    ExperienceList(ExperienceTitle, d.experience, ExperienceItem(fmt), fmt, Marker, k);
    ChipSkillsList(SkillsTitle, d.skills, SkillItem(), k);
    StackedEducationList(EducationTitle, d.education, EducationItem(fmt), fmt, true, k);
    StackedCertificationList(CertificationsTitle, d.certifications, CertificationItem(fmt), fmt, k);
    ProjectList(ProjectsTitle, d.projects, ProjectItem(), TechLabel, k);
  }

  /** The section titles, in page order, of the sections that have content. */
  function Titles(d: ResumeData): seq<string> {
    (if d.personalInfo.summary != "" then [SummaryTitle] else [])
    + Titled(d.experience, ExperienceTitle) + Titled(d.skills, SkillsTitle)
    + Titled(d.education, EducationTitle) + Titled(d.certifications, CertificationsTitle)
    + Titled(d.projects, ProjectsTitle)
  }

  // Each property below is first worked out on `Shown`, then carried over to
  // the page by `RenderSelect`.

  lemma ShownName(fmt: string -> string, d: ResumeData)
    ensures Shown(fmt, d, Names) == [d.personalInfo.fullName]
  {
  }

  /** The full name heads the page, even when empty. */
  lemma ShowsName(fmt: string -> string, d: ResumeData)
    ensures Select(Render(fmt, d), Names) == [d.personalInfo.fullName]
  {
    RenderSelect(fmt, d, Names);
    ShownName(fmt, d);
  }

  lemma ShownTitles(fmt: string -> string, d: ResumeData)
    ensures Shown(fmt, d, Headings) == Titles(d)
  {
    var k := Headings;
    assert HeaderTexts(d.personalInfo, Tag, k) == [];
    assert ExperienceTexts(fmt, Marker, d.experience, k) == [];
    assert ChipSkillsTexts(d.skills, k) == [];
    assert StackedEducationTexts(fmt, d.education, k) == [];
    assert StackedCertificationTexts(fmt, d.certifications, k) == [];
    assert ProjectTexts(TechLabel, d.projects, k) == [];
  }

  /** The section titles are exactly those of the non-empty sections, in
      page order. */
  lemma ShowsTitles(fmt: string -> string, d: ResumeData)
    ensures Select(Render(fmt, d), Headings) == Titles(d)
  {
    RenderSelect(fmt, d, Headings);
    ShownTitles(fmt, d);
  }

  lemma ShownContact(fmt: string -> string, d: ResumeData, f: PersonalField)
    ensures Shown(fmt, d, Lines(Contact(f))) == ContactLines(d.personalInfo, Tag, f)
  {
    var k := Lines(Contact(f));
    assert SummaryTexts(SummaryTitle, d.personalInfo.summary, k) == [];
    assert ExperienceTexts(fmt, Marker, d.experience, k) == [];
    assert ChipSkillsTexts(d.skills, k) == [];
    assert StackedEducationTexts(fmt, d.education, k) == [];
    assert StackedCertificationTexts(fmt, d.certifications, k) == [];
    assert ProjectTexts(TechLabel, d.projects, k) == [];
  }

  /** Each contact field is shown, after its emoji, exactly when it is
      non-empty. */
  lemma ShowsContacts(fmt: string -> string, d: ResumeData)
    ensures forall f: PersonalField :: Select(Render(fmt, d), Lines(Contact(f))) == ContactLines(d.personalInfo, Tag, f)
  {
    forall f: PersonalField
      ensures Select(Render(fmt, d), Lines(Contact(f))) == ContactLines(d.personalInfo, Tag, f)
    {
      RenderSelect(fmt, d, Lines(Contact(f)));
      ShownContact(fmt, d, f);
    }
  }

  lemma ShownDescriptions(fmt: string -> string, d: ResumeData)
    ensures Shown(fmt, d, Bullets(Marker)) == Concat(d.experience, ExperienceLines)
  {
    var k := Bullets(Marker);
    assert HeaderTexts(d.personalInfo, Tag, k) == [];
    assert SummaryTexts(SummaryTitle, d.personalInfo.summary, k) == [];
    assert ChipSkillsTexts(d.skills, k) == [];
    assert StackedEducationTexts(fmt, d.education, k) == [];
    assert StackedCertificationTexts(fmt, d.certifications, k) == [];
    assert ProjectTexts(TechLabel, d.projects, k) == [];
  }

  /** Every line of every description becomes one `▶` item, in order. */
  lemma ShowsDescriptions(fmt: string -> string, d: ResumeData)
    ensures Select(Render(fmt, d), Bullets(Marker)) == Concat(d.experience, ExperienceLines)
  {
    RenderSelect(fmt, d, Bullets(Marker));
    ShownDescriptions(fmt, d);
  }

  /** Neither the header, the summary nor the skills hold a connector. */
  lemma NoConnectorsAbove(fmt: string -> string, d: ResumeData)
    ensures Select(Header(d.personalInfo, Tag), Connectors) == []
    ensures Select(SummarySection(SummaryTitle, d.personalInfo.summary), Connectors) == []
    ensures Select(ListSection(SkillsTitle, d.skills, SkillItem()), Connectors) == []
  {
    HeaderSelect(d.personalInfo, Tag, Connectors);
    SummarySelect(SummaryTitle, d.personalInfo.summary, Connectors);
    ChipSkillsList(SkillsTitle, d.skills, SkillItem(), Connectors);
  }

  /** Neither education, certifications nor projects hold a connector. */
  lemma NoConnectorsBelow(fmt: string -> string, d: ResumeData)
    ensures Select(ListSection(EducationTitle, d.education, EducationItem(fmt)), Connectors) == []
    ensures Select(ListSection(CertificationsTitle, d.certifications, CertificationItem(fmt)), Connectors) == []
    ensures Select(ListSection(ProjectsTitle, d.projects, ProjectItem()), Connectors) == []
  {
    StackedEducationList(EducationTitle, d.education, EducationItem(fmt), fmt, true, Connectors);
    StackedCertificationList(CertificationsTitle, d.certifications, CertificationItem(fmt), fmt, Connectors);
    ProjectList(ProjectsTitle, d.projects, ProjectItem(), TechLabel, Connectors);
  }

  /** Consecutive experiences are joined: one connector fewer than entries. */
  lemma ShowsConnectors(fmt: string -> string, d: ResumeData)
    ensures |Select(Render(fmt, d), Connectors)| == if |d.experience| > 0 then |d.experience| - 1 else 0
  {
    var p := d.personalInfo;
    PageSelect7(Header(p, Tag), SummarySection(SummaryTitle, p.summary),
      ListSection(ExperienceTitle, d.experience, ExperienceItem(fmt)),
      ListSection(SkillsTitle, d.skills, SkillItem()),
      ListSection(EducationTitle, d.education, EducationItem(fmt)),
      ListSection(CertificationsTitle, d.certifications, CertificationItem(fmt)),
      ListSection(ProjectsTitle, d.projects, ProjectItem()), Connectors);
    NoConnectorsAbove(fmt, d);
    NoConnectorsBelow(fmt, d);
    TimelineConnectors(fmt, d.experience);
  }

  lemma ShownGrades(fmt: string -> string, d: ResumeData)
    ensures Shown(fmt, d, Lines(Grade)) == Concat(d.education, GradeLines)
  {
  }

  /** A grade line appears for exactly the entries with a truthy `gpa`. */
  lemma ShowsGrades(fmt: string -> string, d: ResumeData)
    ensures Select(Render(fmt, d), Lines(Grade)) == Concat(d.education, GradeLines)
  {
    RenderSelect(fmt, d, Lines(Grade));
    ShownGrades(fmt, d);
  }

  lemma ShownSkills(fmt: string -> string, d: ResumeData)
    ensures Shown(fmt, d, Lines(Group)) == seq(|d.skills|, i requires 0 <= i < |d.skills| => d.skills[i].category)
    ensures Shown(fmt, d, Chips) == AllItems(d.skills)
  {
    assert Shown(fmt, d, Lines(Group)) == ChipSkillsTexts(d.skills, Lines(Group)) by {
      var k := Lines(Group);
      assert ExperienceTexts(fmt, Marker, d.experience, k) == StackedEducationTexts(fmt, d.education, k) == [];
      assert StackedCertificationTexts(fmt, d.certifications, k) == ProjectTexts(TechLabel, d.projects, k) == [];
    }
    assert Shown(fmt, d, Chips) == ChipSkillsTexts(d.skills, Chips) by {
      var k := Chips;
      assert ExperienceTexts(fmt, Marker, d.experience, k) == StackedEducationTexts(fmt, d.education, k) == [];
      assert StackedCertificationTexts(fmt, d.certifications, k) == ProjectTexts(TechLabel, d.projects, k) == [];
    }
  }

  /** Each category is shown as a heading of its own, and every item of every
      category, empty ones included, as a chip. */
  lemma ShowsSkills(fmt: string -> string, d: ResumeData)
    ensures Select(Render(fmt, d), Lines(Group)) ==
      seq(|d.skills|, i requires 0 <= i < |d.skills| => d.skills[i].category)
    ensures Select(Render(fmt, d), Chips) == AllItems(d.skills)
  {
    RenderSelect(fmt, d, Lines(Group));
    RenderSelect(fmt, d, Chips);
    ShownSkills(fmt, d);
  }

  lemma ShownLinks(fmt: string -> string, d: ResumeData)
    ensures Shown(fmt, d, Lines(ProjectUrl)) == Concat(d.projects, (p: Project) => LinkLines(p.link))
    ensures Shown(fmt, d, Lines(CertUrl)) == Concat(d.certifications, (c: Certification) => LinkLines(c.link))
  {
    forall k | k == Lines(ProjectUrl) || k == Lines(CertUrl)
      ensures HeaderTexts(d.personalInfo, Tag, k) == SummaryTexts(SummaryTitle, d.personalInfo.summary, k) == []
      ensures ExperienceTexts(fmt, Marker, d.experience, k) == StackedEducationTexts(fmt, d.education, k) == []
      ensures ChipSkillsTexts(d.skills, k) == []
    {
    }
  }

  /** Project and certification links appear exactly when truthy. */
  lemma ShowsLinks(fmt: string -> string, d: ResumeData)
    ensures Select(Render(fmt, d), Lines(ProjectUrl)) == Concat(d.projects, (p: Project) => LinkLines(p.link))
    ensures Select(Render(fmt, d), Lines(CertUrl)) == Concat(d.certifications, (c: Certification) => LinkLines(c.link))
  {
    RenderSelect(fmt, d, Lines(ProjectUrl));
    RenderSelect(fmt, d, Lines(CertUrl));
    ShownLinks(fmt, d);
  }
}
