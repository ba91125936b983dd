/** The minimal template: monospace, every contact value named by its field,
    position and company on one line, dashes for bullets, and the skills
    before the education. */
module MinimalTemplate {
  import opened Strings
  import opened Resume
  import opened Blocks
  import opened Layout
  import opened Sections

  const Marker: string := "-"

  const SummaryTitle: string := "SUMMARY"
  const ExperienceTitle: string := "EXPERIENCE"
  const SkillsTitle: string := "SKILLS"
  const EducationTitle: string := "EDUCATION"
  const ProjectsTitle: string := "PROJECTS"
  const CertificationsTitle: string := "CERTIFICATIONS"
  const TechLabel: string := "Tech: "

  // ---------------------------------------------------------------------
  // The experience entry, which only this template lays out this way.

  /** `{position} @ {company}`, the period, then one dash per description line. */
  function ExperienceEntry(fmt: string -> string, e: Experience): seq<Block> {
    [Line(RoleAtEmployer, e.position + " @ " + e.company)] + [Line(Period, ExperiencePeriod(fmt, e))]
      + DescriptionBullets(Marker, e.description)
  }

  lemma ExperienceSelect(fmt: string -> string, e: Experience, k: Kind)
    ensures Select(ExperienceEntry(fmt, e), k) ==
      if k == Lines(RoleAtEmployer) then [e.position + " @ " + e.company]
      else if k == Lines(Period) then [ExperiencePeriod(fmt, e)]
      else if k == Bullets(Marker) then ExperienceLines(e)
      else []
  {
    LineSelect(RoleAtEmployer, e.position + " @ " + e.company, k);
    LineSelect(Period, ExperiencePeriod(fmt, e), k);
    SelectParts3([Line(RoleAtEmployer, e.position + " @ " + e.company)], [Line(Period, ExperiencePeriod(fmt, e))],
      DescriptionBullets(Marker, e.description), k);
  }

  function ExperienceTexts(fmt: string -> string, xs: seq<Experience>, k: Kind): seq<string> {
    if k == Lines(RoleAtEmployer) then seq(|xs|, i requires 0 <= i < |xs| => xs[i].position + " @ " + xs[i].company)
    else if k == Lines(Period) then seq(|xs|, i requires 0 <= i < |xs| => ExperiencePeriod(fmt, xs[i]))
    else if k == Bullets(Marker) then Concat(xs, ExperienceLines)
    else []
  }

  lemma ExperienceList(xs: seq<Experience>, fmt: string -> string, k: Kind)
    ensures Select(ListSection(ExperienceTitle, xs, ExperienceItem(fmt)), k) ==
      TitleOf(xs, ExperienceTitle, k) + ExperienceTexts(fmt, xs, k)
  {
    var f := ExperienceItem(fmt);
    if k == Lines(RoleAtEmployer) {
      forall i: nat, x: Experience ensures Select(f(i, x), k) == [x.position + " @ " + x.company] {
        ExperienceSelect(fmt, x, k);
      }
      ListSingles(ExperienceTitle, xs, f, k, (x: Experience) => x.position + " @ " + x.company);
    } else if k == Lines(Period) {
      forall i: nat, x: Experience ensures Select(f(i, x), k) == [ExperiencePeriod(fmt, x)] {
        ExperienceSelect(fmt, x, k);
      }
      ListSingles(ExperienceTitle, xs, f, k, (x: Experience) => ExperiencePeriod(fmt, x));
    } else if k == Bullets(Marker) {
      forall i: nat, x: Experience ensures Select(f(i, x), k) == ExperienceLines(x) {
        ExperienceSelect(fmt, x, k);
      }
      ListConcat(ExperienceTitle, xs, f, k, ExperienceLines);
    } else {
      forall i: nat, x: Experience ensures Select(f(i, x), k) == [] {
        ExperienceSelect(fmt, x, k);
      }
      ListNone(ExperienceTitle, xs, f, k);
    }
  }

  // ---------------------------------------------------------------------
  // The page.

  function ExperienceItem(fmt: string -> string): (nat, Experience) -> seq<Block> {
    (i: nat, e: Experience) => ExperienceEntry(fmt, e)
  }

  function SkillItem(): (nat, SkillCategory) -> seq<Block> {
    (i: nat, s: SkillCategory) => SkillLineEntry(s)
  }

  function EducationItem(fmt: string -> string): (nat, Education) -> seq<Block> {
    (i: nat, e: Education) => InFieldEducation(fmt, e)
  }

  function ProjectItem(): (nat, Project) -> seq<Block> {
    (i: nat, p: Project) => ProjectEntry(p, TechLabel)
  }

  function CertificationItem(fmt: string -> string): (nat, Certification) -> seq<Block> {
    (i: nat, c: Certification) => StackedCertification(fmt, c)
  }

  /** The page: header, summary, experience, skills, education, projects,
      certifications; every section but the header only when it has content. */
  function Render(fmt: string -> string, d: ResumeData): seq<Block> {
    Page([
      Header(d.personalInfo, Labelled),
      SummarySection(SummaryTitle, d.personalInfo.summary),
      ListSection(ExperienceTitle, d.experience, ExperienceItem(fmt)),
      ListSection(SkillsTitle, d.skills, SkillItem()),
      ListSection(EducationTitle, d.education, EducationItem(fmt)),
      ListSection(ProjectsTitle, d.projects, ProjectItem()),
      ListSection(CertificationsTitle, d.certifications, CertificationItem(fmt))])
  }

  /** What the page shows of each kind, section by section. */
  function Shown(fmt: string -> string, d: ResumeData, k: Kind): seq<string> {
    HeaderTexts(d.personalInfo, Labelled, k)
    + SummaryTexts(SummaryTitle, d.personalInfo.summary, k)
    + (TitleOf(d.experience, ExperienceTitle, k) + ExperienceTexts(fmt, d.experience, k))
    + (TitleOf(d.skills, SkillsTitle, k) + SkillLineTexts(d.skills, k))
    + (TitleOf(d.education, EducationTitle, k) + InFieldEducationTexts(fmt, d.education, k))
    + (TitleOf(d.projects, ProjectsTitle, k) + ProjectTexts(TechLabel, d.projects, k))
    + (TitleOf(d.certifications, CertificationsTitle, k) + StackedCertificationTexts(fmt, d.certifications, k))
  }

  lemma RenderSelect(fmt: string -> string, d: ResumeData, k: Kind)
    ensures Select(Render(fmt, d), k) == Shown(fmt, d, k)
  {
    var p := d.personalInfo;
    PageSelect7(Header(p, Labelled), SummarySection(SummaryTitle, p.summary),
      ListSection(ExperienceTitle, d.experience, ExperienceItem(fmt)),
      ListSection(SkillsTitle, d.skills, SkillItem()),
      ListSection(EducationTitle, d.education, EducationItem(fmt)),
      ListSection(ProjectsTitle, d.projects, ProjectItem()),
      ListSection(CertificationsTitle, d.certifications, CertificationItem(fmt)), k);
    HeaderSelect(p, Labelled, k);
    SummarySelect(SummaryTitle, p.summary, k);
    ExperienceList(d.experience, fmt, k);
    SkillLineList(SkillsTitle, d.skills, SkillItem(), k);
    InFieldEducationList(EducationTitle, d.education, EducationItem(fmt), fmt, k);
    ProjectList(ProjectsTitle, d.projects, ProjectItem(), TechLabel, k);
    StackedCertificationList(CertificationsTitle, d.certifications, CertificationItem(fmt), fmt, k);
  }

  /** The section titles, in page order, of the sections that have content. */
  function Titles(d: ResumeData): seq<string> {
    (if d.personalInfo.summary != "" then [SummaryTitle] else [])
    + Titled(d.experience, ExperienceTitle) + Titled(d.skills, SkillsTitle)
    + Titled(d.education, EducationTitle) + Titled(d.projects, ProjectsTitle)
    + Titled(d.certifications, CertificationsTitle)
  }

  // Each property below is first worked out on `Shown`, then carried over to
  // the page by `RenderSelect`.

  lemma ShownName(fmt: string -> string, d: ResumeData)
    ensures Shown(fmt, d, Names) == [d.personalInfo.fullName]
  {
  }

  /** The full name heads the page, even when empty. */
  lemma ShowsName(fmt: string -> string, d: ResumeData)
    ensures Select(Render(fmt, d), Names) == [d.personalInfo.fullName]
  {
    RenderSelect(fmt, d, Names);
    ShownName(fmt, d);
  }

  lemma ShownTitles(fmt: string -> string, d: ResumeData)
    ensures Shown(fmt, d, Headings) == Titles(d)
  {
    var k := Headings;
    assert HeaderTexts(d.personalInfo, Labelled, k) == [];
    assert ExperienceTexts(fmt, d.experience, k) == [];
    assert SkillLineTexts(d.skills, k) == [];
    assert InFieldEducationTexts(fmt, d.education, k) == [];
    assert ProjectTexts(TechLabel, d.projects, k) == [];
    assert StackedCertificationTexts(fmt, d.certifications, k) == [];
  }

  /** The section titles are exactly those of the non-empty sections, in
      page order. */
  lemma ShowsTitles(fmt: string -> string, d: ResumeData)
    ensures Select(Render(fmt, d), Headings) == Titles(d)
  {
    RenderSelect(fmt, d, Headings);
    ShownTitles(fmt, d);
  }

  lemma ShownContact(fmt: string -> string, d: ResumeData, f: PersonalField)
    ensures Shown(fmt, d, Lines(Contact(f))) == ContactLines(d.personalInfo, Labelled, f)
  {
    var k := Lines(Contact(f));
    assert SummaryTexts(SummaryTitle, d.personalInfo.summary, k) == [];
    assert ExperienceTexts(fmt, d.experience, k) == [];
    assert InFieldEducationTexts(fmt, d.education, k) == [];
    assert ProjectTexts(TechLabel, d.projects, k) == [];
    assert StackedCertificationTexts(fmt, d.certifications, k) == [];
  }

  /** Each contact field is shown, after its label, exactly when it is
      non-empty. */
  lemma ShowsContacts(fmt: string -> string, d: ResumeData)
    ensures forall f: PersonalField :: Select(Render(fmt, d), Lines(Contact(f))) == ContactLines(d.personalInfo, Labelled, f)
  {
    forall f: PersonalField
      ensures Select(Render(fmt, d), Lines(Contact(f))) == ContactLines(d.personalInfo, Labelled, f)
    {
      RenderSelect(fmt, d, Lines(Contact(f)));
      ShownContact(fmt, d, f);
    }
  }

  lemma ShownRoles(fmt: string -> string, d: ResumeData)
    ensures Shown(fmt, d, Lines(RoleAtEmployer)) ==
      seq(|d.experience|, i requires 0 <= i < |d.experience| => d.experience[i].position + " @ " + d.experience[i].company)
  {
    var k := Lines(RoleAtEmployer);
    assert HeaderTexts(d.personalInfo, Labelled, k) == [];
    assert SummaryTexts(SummaryTitle, d.personalInfo.summary, k) == [];
    assert SkillLineTexts(d.skills, k) == [];
    assert InFieldEducationTexts(fmt, d.education, k) == [];
    assert ProjectTexts(TechLabel, d.projects, k) == [];
    assert StackedCertificationTexts(fmt, d.certifications, k) == [];
  }

  /** Each experience shows `position @ company` on one line. */
  lemma ShowsRoles(fmt: string -> string, d: ResumeData)
    ensures Select(Render(fmt, d), Lines(RoleAtEmployer)) ==
      seq(|d.experience|, i requires 0 <= i < |d.experience| => d.experience[i].position + " @ " + d.experience[i].company)
  {
    RenderSelect(fmt, d, Lines(RoleAtEmployer));
    ShownRoles(fmt, d);
  }

  lemma ShownDescriptions(fmt: string -> string, d: ResumeData)
    ensures Shown(fmt, d, Bullets(Marker)) == Concat(d.experience, ExperienceLines)
  {
    var k := Bullets(Marker);
    assert HeaderTexts(d.personalInfo, Labelled, k) == [];
    assert SummaryTexts(SummaryTitle, d.personalInfo.summary, k) == [];
    assert SkillLineTexts(d.skills, k) == [];
    assert InFieldEducationTexts(fmt, d.education, k) == [];
    assert ProjectTexts(TechLabel, d.projects, k) == [];
    assert StackedCertificationTexts(fmt, d.certifications, k) == [];
  }

  /** Every line of every description becomes one dash item, in order. */
  lemma ShowsDescriptions(fmt: string -> string, d: ResumeData)
    ensures Select(Render(fmt, d), Bullets(Marker)) == Concat(d.experience, ExperienceLines)
  {
    RenderSelect(fmt, d, Bullets(Marker));
    ShownDescriptions(fmt, d);
  }

  lemma ShownGrades(fmt: string -> string, d: ResumeData)
    ensures Shown(fmt, d, Lines(Grade)) == Concat(d.education, GradeLines)
  {
  }

  /** A grade line appears for exactly the entries with a truthy `gpa`. */
  lemma ShowsGrades(fmt: string -> string, d: ResumeData)
    ensures Select(Render(fmt, d), Lines(Grade)) == Concat(d.education, GradeLines)
  {
    RenderSelect(fmt, d, Lines(Grade));
    ShownGrades(fmt, d);
  }

  lemma ShownSkills(fmt: string -> string, d: ResumeData)
    ensures Shown(fmt, d, Lines(SkillList)) == seq(|d.skills|, i requires 0 <= i < |d.skills| => SkillLine(d.skills[i]))
  {
  }

  /** One `category: items` line per skill category, empty items dropped. */
  lemma ShowsSkills(fmt: string -> string, d: ResumeData)
    ensures Select(Render(fmt, d), Lines(SkillList)) ==
      seq(|d.skills|, i requires 0 <= i < |d.skills| => SkillLine(d.skills[i]))
  {
    RenderSelect(fmt, d, Lines(SkillList));
    ShownSkills(fmt, d);
  }

  lemma ShownLinks(fmt: string -> string, d: ResumeData)
    ensures Shown(fmt, d, Lines(ProjectUrl)) == Concat(d.projects, (p: Project) => LinkLines(p.link))
    ensures Shown(fmt, d, Lines(CertUrl)) == Concat(d.certifications, (c: Certification) => LinkLines(c.link))
  {
    ShownProjectLinks(fmt, d);
    ShownCertificationLinks(fmt, d);
  }

  lemma ShownProjectLinks(fmt: string -> string, d: ResumeData)
    ensures Shown(fmt, d, Lines(ProjectUrl)) == Concat(d.projects, (p: Project) => LinkLines(p.link))
  {
    var k := Lines(ProjectUrl);
    assert HeaderTexts(d.personalInfo, Labelled, k) == [];
    assert SummaryTexts(SummaryTitle, d.personalInfo.summary, k) == [];
    assert ExperienceTexts(fmt, d.experience, k) == [];
    assert SkillLineTexts(d.skills, k) == [];
    assert InFieldEducationTexts(fmt, d.education, k) == [];
    assert StackedCertificationTexts(fmt, d.certifications, k) == [];
  }

  lemma ShownCertificationLinks(fmt: string -> string, d: ResumeData)
    ensures Shown(fmt, d, Lines(CertUrl)) == Concat(d.certifications, (c: Certification) => LinkLines(c.link))
  {
    var k := Lines(CertUrl);
    assert HeaderTexts(d.personalInfo, Labelled, k) == [];
    assert SummaryTexts(SummaryTitle, d.personalInfo.summary, k) == [];
    assert ExperienceTexts(fmt, d.experience, k) == [];
    assert SkillLineTexts(d.skills, k) == [];
    assert InFieldEducationTexts(fmt, d.education, k) == [];
    assert ProjectTexts(TechLabel, d.projects, k) == [];
  }

  /** Project and certification links appear exactly when truthy. */
  lemma ShowsLinks(fmt: string -> string, d: ResumeData)
    ensures Select(Render(fmt, d), Lines(ProjectUrl)) == Concat(d.projects, (p: Project) => LinkLines(p.link))
    ensures Select(Render(fmt, d), Lines(CertUrl)) == Concat(d.certifications, (c: Certification) => LinkLines(c.link))
  {
    RenderSelect(fmt, d, Lines(ProjectUrl));
    RenderSelect(fmt, d, Lines(CertUrl));
    ShownLinks(fmt, d);
  }
}
