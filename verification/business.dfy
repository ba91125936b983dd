/** The business template: labelled contact values, skills listed as
    bullets under their category, and education and certifications before
    the projects. */
module BusinessTemplate {
  import opened Strings
  import opened Resume
  import opened Blocks
  import opened Layout
  import opened Sections

  /** `▪`, in front of each description line. */
  const Marker: string := "\U{25AA}"
  /** `•`, in front of each skill item. */
  const SkillMarker: string := "\U{2022}"

  const SummaryTitle: string := "Executive Summary"
  const ExperienceTitle: string := "Professional Experience"
  const SkillsTitle: string := "Core Competencies"
  const EducationTitle: string := "Education"
  const CertificationsTitle: string := "Professional Certifications"
  const ProjectsTitle: string := "Key Projects"
  const TechLabel: string := "Technologies: "

  function ExperienceItem(fmt: string -> string): (nat, Experience) -> seq<Block> {
    (i: nat, e: Experience) => ExperienceEntry(fmt, e, Marker)
  }

  function SkillItem(): (nat, SkillCategory) -> seq<Block> {
    (i: nat, s: SkillCategory) => BulletSkills(s, SkillMarker)
  }

  function EducationItem(fmt: string -> string): (nat, Education) -> seq<Block> {
    (i: nat, e: Education) => StackedEducation(fmt, e, true)
  }

  function CertificationItem(fmt: string -> string): (nat, Certification) -> seq<Block> {
    (i: nat, c: Certification) => StackedCertification(fmt, c)
  }

  function ProjectItem(): (nat, Project) -> seq<Block> {
    (i: nat, p: Project) => ProjectEntry(p, TechLabel)
  }

  /** The page: header, summary, experience, skills, education,
      certifications, projects; every section but the header only when it
      has content. */
  function Render(fmt: string -> string, d: ResumeData): seq<Block> {
    Page([
      Header(d.personalInfo, Labelled),
      SummarySection(SummaryTitle, d.personalInfo.summary),
      ListSection(ExperienceTitle, d.experience, ExperienceItem(fmt)),
      ListSection(SkillsTitle, d.skills, SkillItem()),
      ListSection(EducationTitle, d.education, EducationItem(fmt)),
      ListSection(CertificationsTitle, d.certifications, CertificationItem(fmt)),
      ListSection(ProjectsTitle, d.projects, ProjectItem())])
  }

  /** What the page shows of each kind, section by section. */
  function Shown(fmt: string -> string, d: ResumeData, k: Kind): seq<string> {
    HeaderTexts(d.personalInfo, Labelled, k)
    + SummaryTexts(SummaryTitle, d.personalInfo.summary, k)
    + (TitleOf(d.experience, ExperienceTitle, k) + ExperienceTexts(fmt, Marker, d.experience, k))
    + (TitleOf(d.skills, SkillsTitle, k) + BulletSkillsTexts(SkillMarker, d.skills, k))
    + (TitleOf(d.education, EducationTitle, k) + StackedEducationTexts(fmt, d.education, k))
    + (TitleOf(d.certifications, CertificationsTitle, k) + StackedCertificationTexts(fmt, d.certifications, k))
    + (TitleOf(d.projects, ProjectsTitle, k) + ProjectTexts(TechLabel, d.projects, k))
  }

  lemma RenderSelect(fmt: string -> string, d: ResumeData, k: Kind)
    ensures Select(Render(fmt, d), k) == Shown(fmt, d, k)
  {
    var p := d.personalInfo;
    PageSelect7(Header(p, Labelled), SummarySection(SummaryTitle, p.summary),
      ListSection(ExperienceTitle, d.experience, ExperienceItem(fmt)),
      ListSection(SkillsTitle, d.skills, SkillItem()),
      ListSection(EducationTitle, d.education, EducationItem(fmt)),
      ListSection(CertificationsTitle, d.certifications, CertificationItem(fmt)),
      ListSection(ProjectsTitle, d.projects, ProjectItem()), k);
    HeaderSelect(p, Labelled, k);
    SummarySelect(SummaryTitle, p.summary, k);
    ExperienceList(ExperienceTitle, d.experience, ExperienceItem(fmt), fmt, Marker, k);
    BulletSkillsList(SkillsTitle, d.skills, SkillItem(), SkillMarker, k);
    StackedEducationList(EducationTitle, d.education, EducationItem(fmt), fmt, true, k);
    StackedCertificationList(CertificationsTitle, d.certifications, CertificationItem(fmt), fmt, k);
    ProjectList(ProjectsTitle, d.projects, ProjectItem(), TechLabel, k);
  }

  /** The section titles, in page order, of the sections that have content. */
  function Titles(d: ResumeData): seq<string> {
    (if d.personalInfo.summary != "" then [SummaryTitle] else [])
    + Titled(d.experience, ExperienceTitle) + Titled(d.skills, SkillsTitle)
    + Titled(d.education, EducationTitle) + Titled(d.certifications, CertificationsTitle)
    + Titled(d.projects, ProjectsTitle)
  }

  // Each property below is first worked out on `Shown`, then carried over to
  // the page by `RenderSelect`.

  lemma ShownName(fmt: string -> string, d: ResumeData)
    ensures Shown(fmt, d, Names) == [d.personalInfo.fullName]
  {
  }

  /** The full name heads the page, even when empty. */
  lemma ShowsName(fmt: string -> string, d: ResumeData)
    ensures Select(Render(fmt, d), Names) == [d.personalInfo.fullName]
  {
    RenderSelect(fmt, d, Names);
    ShownName(fmt, d);
  }

  lemma ShownTitles(fmt: string -> string, d: ResumeData)
    ensures Shown(fmt, d, Headings) == Titles(d)
  {
    var k := Headings;
    assert HeaderTexts(d.personalInfo, Labelled, k) == [];
    assert ExperienceTexts(fmt, Marker, d.experience, k) == [];
    assert BulletSkillsTexts(SkillMarker, d.skills, k) == [];
    assert StackedEducationTexts(fmt, d.education, k) == [];
    assert StackedCertificationTexts(fmt, d.certifications, k) == [];
    assert ProjectTexts(TechLabel, d.projects, k) == [];
  }

  /** The section titles are exactly those of the non-empty sections, in
      page order. */
  lemma ShowsTitles(fmt: string -> string, d: ResumeData)
    ensures Select(Render(fmt, d), Headings) == Titles(d)
  {
    RenderSelect(fmt, d, Headings);
    ShownTitles(fmt, d);
  }

  lemma ShownContact(fmt: string -> string, d: ResumeData, f: PersonalField)
    ensures Shown(fmt, d, Lines(Contact(f))) == ContactLines(d.personalInfo, Labelled, f)
  {
    var k := Lines(Contact(f));
    assert SummaryTexts(SummaryTitle, d.personalInfo.summary, k) == [];
    assert ExperienceTexts(fmt, Marker, d.experience, k) == [];
    assert BulletSkillsTexts(SkillMarker, d.skills, k) == [];
    assert StackedEducationTexts(fmt, d.education, k) == [];
    assert StackedCertificationTexts(fmt, d.certifications, k) == [];
    assert ProjectTexts(TechLabel, d.projects, k) == [];
  }

  /** Each contact field is shown, after its label, exactly when it is
      non-empty. */
  lemma ShowsContacts(fmt: string -> string, d: ResumeData)
    ensures forall f: PersonalField :: Select(Render(fmt, d), Lines(Contact(f))) == ContactLines(d.personalInfo, Labelled, f)
  {
    forall f: PersonalField
      ensures Select(Render(fmt, d), Lines(Contact(f))) == ContactLines(d.personalInfo, Labelled, f)
    {
      RenderSelect(fmt, d, Lines(Contact(f)));
      ShownContact(fmt, d, f);
    }
  }

  lemma ShownDescriptions(fmt: string -> string, d: ResumeData)
    ensures Shown(fmt, d, Bullets(Marker)) == Concat(d.experience, ExperienceLines)
  {
    var k := Bullets(Marker);
    assert Marker != SkillMarker by { assert Marker[0] != SkillMarker[0]; }
    assert HeaderTexts(d.personalInfo, Labelled, k) == [];
    assert SummaryTexts(SummaryTitle, d.personalInfo.summary, k) == [];
    assert BulletSkillsTexts(SkillMarker, d.skills, k) == [];
    assert StackedEducationTexts(fmt, d.education, k) == [];
    assert StackedCertificationTexts(fmt, d.certifications, k) == [];
    assert ProjectTexts(TechLabel, d.projects, k) == [];
  }

  /** Every line of every description becomes one `▪` item, in order. */
  lemma ShowsDescriptions(fmt: string -> string, d: ResumeData)
    ensures Select(Render(fmt, d), Bullets(Marker)) == Concat(d.experience, ExperienceLines)
  {
    RenderSelect(fmt, d, Bullets(Marker));
    ShownDescriptions(fmt, d);
  }

  lemma ShownGrades(fmt: string -> string, d: ResumeData)
    ensures Shown(fmt, d, Lines(Grade)) == Concat(d.education, GradeLines)
  {
  }

  /** A grade line appears for exactly the entries with a truthy `gpa`. */
  lemma ShowsGrades(fmt: string -> string, d: ResumeData)
    ensures Select(Render(fmt, d), Lines(Grade)) == Concat(d.education, GradeLines)
  {
    RenderSelect(fmt, d, Lines(Grade));
    ShownGrades(fmt, d);
  }

  lemma ShownSkills(fmt: string -> string, d: ResumeData)
    ensures Shown(fmt, d, Lines(Group)) == seq(|d.skills|, i requires 0 <= i < |d.skills| => d.skills[i].category)
    ensures Shown(fmt, d, Bullets(SkillMarker)) == AllItems(d.skills)
  {
    ShownSkillsAt(fmt, d, Lines(Group));
    ShownSkillsAt(fmt, d, Bullets(SkillMarker));
  }

  /** Under the two kinds the skills section uses, no other section shows
      anything. */
  lemma ShownSkillsAt(fmt: string -> string, d: ResumeData, k: Kind)
    requires k == Lines(Group) || k == Bullets(SkillMarker)
    ensures Shown(fmt, d, k) == BulletSkillsTexts(SkillMarker, d.skills, k)
  {
    assert Marker != SkillMarker by { assert Marker[0] != SkillMarker[0]; }
    var p := d.personalInfo;
    var sk := BulletSkillsTexts(SkillMarker, d.skills, k);
    assert HeaderTexts(p, Labelled, k) == [];
    assert SummaryTexts(SummaryTitle, p.summary, k) == [];
    assert TitleOf(d.experience, ExperienceTitle, k) + ExperienceTexts(fmt, Marker, d.experience, k) == [];
    assert TitleOf(d.skills, SkillsTitle, k) + sk == sk;
    assert TitleOf(d.education, EducationTitle, k) + StackedEducationTexts(fmt, d.education, k) == [];
    assert TitleOf(d.certifications, CertificationsTitle, k) + StackedCertificationTexts(fmt, d.certifications, k) == [];
    assert TitleOf(d.projects, ProjectsTitle, k) + ProjectTexts(TechLabel, d.projects, k) == [];
    assert [] + [] + [] + sk + [] + [] + [] == sk;
  }

  /** Each category is shown as a heading of its own, and every item of every
      category, empty ones included, as a `•` bullet. */
  lemma ShowsSkills(fmt: string -> string, d: ResumeData)
    ensures Select(Render(fmt, d), Lines(Group)) ==
      seq(|d.skills|, i requires 0 <= i < |d.skills| => d.skills[i].category)
    ensures Select(Render(fmt, d), Bullets(SkillMarker)) == AllItems(d.skills)
  {
    RenderSelect(fmt, d, Lines(Group));
    RenderSelect(fmt, d, Bullets(SkillMarker));
    ShownSkills(fmt, d);
  }

  lemma ShownLinks(fmt: string -> string, d: ResumeData)
    ensures Shown(fmt, d, Lines(ProjectUrl)) == Concat(d.projects, (p: Project) => LinkLines(p.link))
    ensures Shown(fmt, d, Lines(CertUrl)) == Concat(d.certifications, (c: Certification) => LinkLines(c.link))
  {
    forall k | k == Lines(ProjectUrl) || k == Lines(CertUrl)
      ensures HeaderTexts(d.personalInfo, Labelled, k) == SummaryTexts(SummaryTitle, d.personalInfo.summary, k) == []
      ensures ExperienceTexts(fmt, Marker, d.experience, k) == StackedEducationTexts(fmt, d.education, k) == []
      ensures BulletSkillsTexts(SkillMarker, d.skills, k) == []
    {
    }
  }

  /** Project and certification links appear exactly when truthy. */
  lemma ShowsLinks(fmt: string -> string, d: ResumeData)
    ensures Select(Render(fmt, d), Lines(ProjectUrl)) == Concat(d.projects, (p: Project) => LinkLines(p.link))
    ensures Select(Render(fmt, d), Lines(CertUrl)) == Concat(d.certifications, (c: Certification) => LinkLines(c.link))
  {
    RenderSelect(fmt, d, Lines(ProjectUrl));
    RenderSelect(fmt, d, Lines(CertUrl));
    ShownLinks(fmt, d);
  }
}
