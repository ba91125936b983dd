/** The creative template: a black header, entries led by coloured dots
    that cycle through a small palette, a timeline of experiences joined by
    connectors, skills as chips, and education and certifications before the
    projects. */
module CreativeTemplate {
  import opened Strings
  import opened Resume
  import opened Blocks
  import opened Layout
  import opened Sections

  /** `•` */
  const Marker: string := "\U{2022}"

  const SummaryTitle: string := "About Me"
  const ExperienceTitle: string := "Experience Journey"
  const SkillsTitle: string := "Skill Arsenal"
  const EducationTitle: string := "Learning Path"
  const CertificationsTitle: string := "Achievements"
  const ProjectsTitle: string := "Project Showcase"
  const TechLabel: string := "Tech Stack: "

  /** Contact values carry a coloured dot but no text in front of them. */
  function Tag(f: PersonalField): string {
    Plain(f)
  }

  // ---------------------------------------------------------------------
  // Entries. Entry `i` of a list is led by a dot of colour `i % m`, where the
  // palette has four colours for experiences and skills, two for education
  // and certifications and three for projects.

  /** Every experience but the last is followed by a connector to the next;
      `n` is the number of experiences. */
  function ExperienceItem(fmt: string -> string, n: nat): (nat, Experience) -> seq<Block> {
    (i: nat, e: Experience) => Accented(i % 4, ExperienceEntry(fmt, e, Marker) + Opt(i + 1 < n, Connector))
  }

  function SkillItem(): (nat, SkillCategory) -> seq<Block> {
    (i: nat, s: SkillCategory) => Accented(i % 4, ChipSkills(s))
  }

  function EducationItem(fmt: string -> string): (nat, Education) -> seq<Block> {
    (i: nat, e: Education) => Accented(i % 2, StackedEducation(fmt, e, true))
  }

  function CertificationItem(fmt: string -> string): (nat, Certification) -> seq<Block> {
    (i: nat, c: Certification) => Accented(i % 2, StackedCertification(fmt, c))
  }

  function ProjectItem(): (nat, Project) -> seq<Block> {
    (i: nat, p: Project) => Accented(i % 3, ProjectEntry(p, TechLabel))
  }

  /** Apart from dots and connectors, an experience shows what the shared
      entry shows. */
  lemma ExperienceItemSelect(fmt: string -> string, n: nat, i: nat, e: Experience, k: Kind)
    requires k != Connectors && k != Accents
    ensures Select(ExperienceItem(fmt, n)(i, e), k) == Select(ExperienceEntry(fmt, e, Marker), k)
  {
    var body := ExperienceEntry(fmt, e, Marker) + Opt(i + 1 < n, Connector);
    AccentedSelect(i % 4, body, k);
    OptSelect(i + 1 < n, Connector, k);
    SuffixSelect(ExperienceEntry(fmt, e, Marker), Opt(i + 1 < n, Connector), k);
  }

  /** Apart from dots, every other entry shows what its shared entry shows. */
  lemma ItemsSelect(fmt: string -> string, k: Kind)
    requires k != Accents
    ensures forall i: nat, x: SkillCategory :: Select(SkillItem()(i, x), k) == Select(ChipSkills(x), k)
    ensures forall i: nat, x: Education :: Select(EducationItem(fmt)(i, x), k) == Select(StackedEducation(fmt, x, true), k)
    ensures forall i: nat, x: Certification :: Select(CertificationItem(fmt)(i, x), k) == Select(StackedCertification(fmt, x), k)
    ensures forall i: nat, x: Project :: Select(ProjectItem()(i, x), k) == Select(ProjectEntry(x, TechLabel), k)
  {
    forall i: nat, x: SkillCategory ensures Select(SkillItem()(i, x), k) == Select(ChipSkills(x), k) {
      AccentedSelect(i % 4, ChipSkills(x), k);
    }
    forall i: nat, x: Education
      ensures Select(EducationItem(fmt)(i, x), k) == Select(StackedEducation(fmt, x, true), k)
    {
      AccentedSelect(i % 2, StackedEducation(fmt, x, true), k);
    }
    forall i: nat, x: Certification
      ensures Select(CertificationItem(fmt)(i, x), k) == Select(StackedCertification(fmt, x), k)
    {
      AccentedSelect(i % 2, StackedCertification(fmt, x), k);
    }
    forall i: nat, x: Project ensures Select(ProjectItem()(i, x), k) == Select(ProjectEntry(x, TechLabel), k) {
      AccentedSelect(i % 3, ProjectEntry(x, TechLabel), k);
    }
  }

  // ---------------------------------------------------------------------
  // The timeline.

  /** Entry `i` of `n` holds one connector exactly when it is not the last. */
  lemma ItemConnectors(fmt: string -> string, n: nat, i: nat, e: Experience)
    ensures |Select(ExperienceItem(fmt, n)(i, e), Connectors)| == if i + 1 < n then 1 else 0
  {
    var body := ExperienceEntry(fmt, e, Marker) + Opt(i + 1 < n, Connector);
    AccentedSelect(i % 4, body, Connectors);
    OptSelect(i + 1 < n, Connector, Connectors);
    ExperienceSelect(fmt, e, Marker, Connectors);
    SelectAppend(ExperienceEntry(fmt, e, Marker), Opt(i + 1 < n, Connector), Connectors);
  }

  /** A list of `n` entries holds `n - 1` connectors. */
  lemma TimelineConnectors(fmt: string -> string, xs: seq<Experience>)
    ensures |Select(ListSection(ExperienceTitle, xs, ExperienceItem(fmt, |xs|)), Connectors)| ==
      if |xs| > 0 then |xs| - 1 else 0
  {
    var f := ExperienceItem(fmt, |xs|);
    forall i: nat, x: Experience ensures |Select(f(i, x), Connectors)| == if i + 1 < |xs| then 1 else 0 {
      ItemConnectors(fmt, |xs|, i, x);
    }
    EachCountNotLast(xs, f, Connectors);
    SectionSelect(|xs| > 0, ExperienceTitle, Each(xs, f), Connectors);
  }

  // ---------------------------------------------------------------------
  // Colours.

  /** The colours `0, 1, …, m - 1, 0, 1, …` of `n` consecutive entries. */
  function Cycle(n: nat, m: nat): seq<nat>
    requires m > 0
  {
    seq(n, j requires 0 <= j < n => j % m)
  }

  /** With any of the palettes used here, neighbouring entries never share a
      colour, and every colour is one of the palette's. */
  lemma {:induction false} CycleAlternates(n: nat, m: nat)
    requires 2 <= m <= 4
    ensures forall j :: 0 <= j < n - 1 ==> Cycle(n, m)[j] != Cycle(n, m)[j + 1]
    ensures forall j :: 0 <= j < n ==> Cycle(n, m)[j] < m
  {
    forall j | 0 <= j < n - 1 ensures Cycle(n, m)[j] != Cycle(n, m)[j + 1] {
      if m == 2 {
        assert j % 2 != (j + 1) % 2;
      } else if m == 3 {
        assert j % 3 != (j + 1) % 3;
      } else {
        assert j % 4 != (j + 1) % 4;
      }
    }
  }

  /** A list whose entry `i` carries the one colour `i % m` carries the
      cycle. */
  lemma ListColours<T>(title: string, xs: seq<T>, f: (nat, T) -> seq<Block>, m: nat)
    requires m > 0
    requires forall i: nat, x: T :: Colours(f(i, x)) == [i % m]
    ensures Colours(ListSection(title, xs, f)) == Cycle(|xs|, m)
  {
    var c := (i: nat) => i % m;
    EachColours(xs, f, 0, c);
    SectionSelect(|xs| > 0, title, Each(xs, f), Accents);
  }

  /** Each entry carries exactly its own dot's colour. */
  lemma ItemsColours(fmt: string -> string, n: nat)
    ensures forall i: nat, x: Experience :: Colours(ExperienceItem(fmt, n)(i, x)) == [i % 4]
    ensures forall i: nat, x: SkillCategory :: Colours(SkillItem()(i, x)) == [i % 4]
    ensures forall i: nat, x: Education :: Colours(EducationItem(fmt)(i, x)) == [i % 2]
    ensures forall i: nat, x: Certification :: Colours(CertificationItem(fmt)(i, x)) == [i % 2]
    ensures forall i: nat, x: Project :: Colours(ProjectItem()(i, x)) == [i % 3]
  {
    forall i: nat, x: Experience ensures Colours(ExperienceItem(fmt, n)(i, x)) == [i % 4] {
      ExperienceSelect(fmt, x, Marker, Accents);
      OptSelect(i + 1 < n, Connector, Accents);
      SelectAppend(ExperienceEntry(fmt, x, Marker), Opt(i + 1 < n, Connector), Accents);
      AccentedColours(i % 4, ExperienceEntry(fmt, x, Marker) + Opt(i + 1 < n, Connector));
    }
    forall i: nat, x: SkillCategory ensures Colours(SkillItem()(i, x)) == [i % 4] {
      ChipSkillsSelect(x, Accents);
      AccentedColours(i % 4, ChipSkills(x));
    }
    forall i: nat, x: Education ensures Colours(EducationItem(fmt)(i, x)) == [i % 2] {
      StackedEducationSelect(fmt, x, true, Accents);
      AccentedColours(i % 2, StackedEducation(fmt, x, true));
    }
    forall i: nat, x: Certification ensures Colours(CertificationItem(fmt)(i, x)) == [i % 2] {
      StackedCertificationSelect(fmt, x, Accents);
      AccentedColours(i % 2, StackedCertification(fmt, x));
    }
    forall i: nat, x: Project ensures Colours(ProjectItem()(i, x)) == [i % 3] {
      ProjectSelect(x, TechLabel, Accents);
      AccentedColours(i % 3, ProjectEntry(x, TechLabel));
    }
  }

  // ---------------------------------------------------------------------
  // The page.

  /** The page: header, summary, experience, skills, education,
      certifications, projects; every section but the header only when it
      has content. */
  function Render(fmt: string -> string, d: ResumeData): seq<Block> {
    Page([
      Header(d.personalInfo, Tag),
      SummarySection(SummaryTitle, d.personalInfo.summary),
      ListSection(ExperienceTitle, d.experience, ExperienceItem(fmt, |d.experience|)),
      ListSection(SkillsTitle, d.skills, SkillItem()),
      ListSection(EducationTitle, d.education, EducationItem(fmt)),
      ListSection(CertificationsTitle, d.certifications, CertificationItem(fmt)),
      ListSection(ProjectsTitle, d.projects, ProjectItem())])
  }

  /** What the page shows of each kind other than dots and connectors,
      section by section. */
  function Shown(fmt: string -> string, d: ResumeData, k: Kind): seq<string> {
    HeaderTexts(d.personalInfo, Tag, k)
    + SummaryTexts(SummaryTitle, d.personalInfo.summary, k)
    + (TitleOf(d.experience, ExperienceTitle, k) + ExperienceTexts(fmt, Marker, d.experience, k))
    + (TitleOf(d.skills, SkillsTitle, k) + ChipSkillsTexts(d.skills, k))
    + (TitleOf(d.education, EducationTitle, k) + StackedEducationTexts(fmt, d.education, k))
    + (TitleOf(d.certifications, CertificationsTitle, k) + StackedCertificationTexts(fmt, d.certifications, k))
    + (TitleOf(d.projects, ProjectsTitle, k) + ProjectTexts(TechLabel, d.projects, k))
  }

  lemma RenderSelect(fmt: string -> string, d: ResumeData, k: Kind)
    requires k != Connectors && k != Accents
    ensures Select(Render(fmt, d), k) == Shown(fmt, d, k)
  {
    var p := d.personalInfo;
    var n := |d.experience|;
    PageSelect7(Header(p, Tag), SummarySection(SummaryTitle, p.summary),
      ListSection(ExperienceTitle, d.experience, ExperienceItem(fmt, n)),
      ListSection(SkillsTitle, d.skills, SkillItem()),
      ListSection(EducationTitle, d.education, EducationItem(fmt)),
      ListSection(CertificationsTitle, d.certifications, CertificationItem(fmt)),
      ListSection(ProjectsTitle, d.projects, ProjectItem()), k);
    HeaderSelect(p, Tag, k);
    SummarySelect(SummaryTitle, p.summary, k);
    forall i: nat, x: Experience
      ensures Select(ExperienceItem(fmt, n)(i, x), k) == Select(ExperienceEntry(fmt, x, Marker), k)
    {
      ExperienceItemSelect(fmt, n, i, x, k);
    }
    ItemsSelect(fmt, k);
    ExperienceList(ExperienceTitle, d.experience, ExperienceItem(fmt, n), fmt, Marker, k);
    ChipSkillsList(SkillsTitle, d.skills, SkillItem(), k);
    StackedEducationList(EducationTitle, d.education, EducationItem(fmt), fmt, true, k);
    StackedCertificationList(CertificationsTitle, d.certifications, CertificationItem(fmt), fmt, k);
    ProjectList(ProjectsTitle, d.projects, ProjectItem(), TechLabel, k);
  }

  /** The dots of the upper part of the page: none in the header or the
      summary, then the experiences' and the skills' cycles. */
  lemma AccentsAbove(fmt: string -> string, d: ResumeData)
    ensures Colours(Header(d.personalInfo, Tag)) == []
    ensures Colours(SummarySection(SummaryTitle, d.personalInfo.summary)) == []
    ensures Colours(ListSection(ExperienceTitle, d.experience, ExperienceItem(fmt, |d.experience|))) ==
      Cycle(|d.experience|, 4)
    ensures Colours(ListSection(SkillsTitle, d.skills, SkillItem())) == Cycle(|d.skills|, 4)
  {
    HeaderSelect(d.personalInfo, Tag, Accents);
    SummarySelect(SummaryTitle, d.personalInfo.summary, Accents);
    ItemsColours(fmt, |d.experience|);
    ListColours(ExperienceTitle, d.experience, ExperienceItem(fmt, |d.experience|), 4);
    ListColours(SkillsTitle, d.skills, SkillItem(), 4);
  }

  /** The dots of the lower part of the page: the education, certification
      and project cycles. */
  lemma AccentsBelow(fmt: string -> string, d: ResumeData)
    ensures Colours(ListSection(EducationTitle, d.education, EducationItem(fmt))) == Cycle(|d.education|, 2)
    ensures Colours(ListSection(CertificationsTitle, d.certifications, CertificationItem(fmt))) ==
      Cycle(|d.certifications|, 2)
    ensures Colours(ListSection(ProjectsTitle, d.projects, ProjectItem())) == Cycle(|d.projects|, 3)
  {
    ItemsColours(fmt, 0);
    ListColours(EducationTitle, d.education, EducationItem(fmt), 2);
    ListColours(CertificationsTitle, d.certifications, CertificationItem(fmt), 2);
    ListColours(ProjectsTitle, d.projects, ProjectItem(), 3);
  }

  /** The dots, in page order: each list's entries cycle through its own
      palette, starting over in every section. */
  lemma ShowsAccents(fmt: string -> string, d: ResumeData)
    ensures Colours(Render(fmt, d)) ==
      Cycle(|d.experience|, 4) + Cycle(|d.skills|, 4) + Cycle(|d.education|, 2)
      + Cycle(|d.certifications|, 2) + Cycle(|d.projects|, 3)
  {
    var p := d.personalInfo;
    PageSelect7(Header(p, Tag), SummarySection(SummaryTitle, p.summary),
      ListSection(ExperienceTitle, d.experience, ExperienceItem(fmt, |d.experience|)),
      ListSection(SkillsTitle, d.skills, SkillItem()),
      ListSection(EducationTitle, d.education, EducationItem(fmt)),
      ListSection(CertificationsTitle, d.certifications, CertificationItem(fmt)),
      ListSection(ProjectsTitle, d.projects, ProjectItem()), Accents);
    AccentsAbove(fmt, d);
    AccentsBelow(fmt, d);
    var e, s := Cycle(|d.experience|, 4), Cycle(|d.skills|, 4);
    var u, c, r := Cycle(|d.education|, 2), Cycle(|d.certifications|, 2), Cycle(|d.projects|, 3);
    assert Colours(Render(fmt, d)) == [] + [] + e + s + u + c + r;
    assert [] + [] + e == e;
  }

  /** The section titles, in page order, of the sections that have content. */
  function Titles(d: ResumeData): seq<string> {
    (if d.personalInfo.summary != "" then [SummaryTitle] else [])
    + Titled(d.experience, ExperienceTitle) + Titled(d.skills, SkillsTitle)
    + Titled(d.education, EducationTitle) + Titled(d.certifications, CertificationsTitle)
    + Titled(d.projects, ProjectsTitle)
  }

  // Each property below is first worked out on `Shown`, then carried over to
  // the page by `RenderSelect`.

  lemma ShownName(fmt: string -> string, d: ResumeData)
    ensures Shown(fmt, d, Names) == [d.personalInfo.fullName]
  {
  }

  /** The full name heads the page, even when empty. */
  lemma ShowsName(fmt: string -> string, d: ResumeData)
    ensures Select(Render(fmt, d), Names) == [d.personalInfo.fullName]
  {
    RenderSelect(fmt, d, Names);
    ShownName(fmt, d);
  }

  lemma ShownTitles(fmt: string -> string, d: ResumeData)
    ensures Shown(fmt, d, Headings) == Titles(d)
  {
    var k := Headings;
    assert HeaderTexts(d.personalInfo, Tag, k) == [];
    assert ExperienceTexts(fmt, Marker, d.experience, k) == [];
    assert ChipSkillsTexts(d.skills, k) == [];
    assert StackedEducationTexts(fmt, d.education, k) == [];
    assert StackedCertificationTexts(fmt, d.certifications, k) == [];
    assert ProjectTexts(TechLabel, d.projects, k) == [];
  }

  /** The section titles are exactly those of the non-empty sections, in
      page order. */
  lemma ShowsTitles(fmt: string -> string, d: ResumeData)
    ensures Select(Render(fmt, d), Headings) == Titles(d)
  {
    RenderSelect(fmt, d, Headings);
    ShownTitles(fmt, d);
  }

  lemma ShownContact(fmt: string -> string, d: ResumeData, f: PersonalField)
    ensures Shown(fmt, d, Lines(Contact(f))) == ContactLines(d.personalInfo, Tag, f)
  {
    var k := Lines(Contact(f));
    assert SummaryTexts(SummaryTitle, d.personalInfo.summary, k) == [];
    assert ExperienceTexts(fmt, Marker, d.experience, k) == [];
    assert ChipSkillsTexts(d.skills, k) == [];
    assert StackedEducationTexts(fmt, d.education, k) == [];
    assert StackedCertificationTexts(fmt, d.certifications, k) == [];
    assert ProjectTexts(TechLabel, d.projects, k) == [];
  }

  /** Each contact field is shown exactly when it is non-empty. */
  lemma ShowsContacts(fmt: string -> string, d: ResumeData)
    ensures forall f: PersonalField :: Select(Render(fmt, d), Lines(Contact(f))) == ContactLines(d.personalInfo, Tag, f)
  {
    forall f: PersonalField
      ensures Select(Render(fmt, d), Lines(Contact(f))) == ContactLines(d.personalInfo, Tag, f)
    {
      RenderSelect(fmt, d, Lines(Contact(f)));
      ShownContact(fmt, d, f);
    }
  }

  lemma ShownDescriptions(fmt: string -> string, d: ResumeData)
    ensures Shown(fmt, d, Bullets(Marker)) == Concat(d.experience, ExperienceLines)
  {
    var k := Bullets(Marker);
    assert HeaderTexts(d.personalInfo, Tag, k) == [];
    assert SummaryTexts(SummaryTitle, d.personalInfo.summary, k) == [];
    assert ChipSkillsTexts(d.skills, k) == [];
    assert StackedEducationTexts(fmt, d.education, k) == [];
    assert StackedCertificationTexts(fmt, d.certifications, k) == [];
    assert ProjectTexts(TechLabel, d.projects, k) == [];
  }

  /** Every line of every description becomes one `•` item, in order. */
  lemma ShowsDescriptions(fmt: string -> string, d: ResumeData)
    ensures Select(Render(fmt, d), Bullets(Marker)) == Concat(d.experience, ExperienceLines)
  {
    RenderSelect(fmt, d, Bullets(Marker));
    ShownDescriptions(fmt, d);
  }

  /** Neither the header, the summary nor the skills hold a connector. */
  lemma NoConnectorsAbove(fmt: string -> string, d: ResumeData)
    ensures Select(Header(d.personalInfo, Tag), Connectors) == []
    ensures Select(SummarySection(SummaryTitle, d.personalInfo.summary), Connectors) == []
    ensures Select(ListSection(SkillsTitle, d.skills, SkillItem()), Connectors) == []
  {
    HeaderSelect(d.personalInfo, Tag, Connectors);
    SummarySelect(SummaryTitle, d.personalInfo.summary, Connectors);
    ItemsSelect(fmt, Connectors);
    ChipSkillsList(SkillsTitle, d.skills, SkillItem(), Connectors);
  }

  /** Neither education, certifications nor projects hold a connector. */
  lemma NoConnectorsBelow(fmt: string -> string, d: ResumeData)
    ensures Select(ListSection(EducationTitle, d.education, EducationItem(fmt)), Connectors) == []
    ensures Select(ListSection(CertificationsTitle, d.certifications, CertificationItem(fmt)), Connectors) == []
    ensures Select(ListSection(ProjectsTitle, d.projects, ProjectItem()), Connectors) == []
  {
    ItemsSelect(fmt, Connectors);
    StackedEducationList(EducationTitle, d.education, EducationItem(fmt), fmt, true, Connectors);
    StackedCertificationList(CertificationsTitle, d.certifications, CertificationItem(fmt), fmt, Connectors);
    ProjectList(ProjectsTitle, d.projects, ProjectItem(), TechLabel, Connectors);
  }

  /** Consecutive experiences are joined: one connector fewer than entries. */
  lemma ShowsConnectors(fmt: string -> string, d: ResumeData)
    ensures |Select(Render(fmt, d), Connectors)| == if |d.experience| > 0 then |d.experience| - 1 else 0
  {
    var p := d.personalInfo;
    PageSelect7(Header(p, Tag), SummarySection(SummaryTitle, p.summary),
      ListSection(ExperienceTitle, d.experience, ExperienceItem(fmt, |d.experience|)),
      ListSection(SkillsTitle, d.skills, SkillItem()),
      ListSection(EducationTitle, d.education, EducationItem(fmt)),
      ListSection(CertificationsTitle, d.certifications, CertificationItem(fmt)),
      ListSection(ProjectsTitle, d.projects, ProjectItem()), Connectors);
    NoConnectorsAbove(fmt, d);
    NoConnectorsBelow(fmt, d);
    TimelineConnectors(fmt, d.experience);
  }

  lemma ShownGrades(fmt: string -> string, d: ResumeData)
    ensures Shown(fmt, d, Lines(Grade)) == Concat(d.education, GradeLines)
  {
  }

  /** A grade line appears for exactly the entries with a truthy `gpa`. */
  lemma ShowsGrades(fmt: string -> string, d: ResumeData)
    ensures Select(Render(fmt, d), Lines(Grade)) == Concat(d.education, GradeLines)
  {
    RenderSelect(fmt, d, Lines(Grade));
    ShownGrades(fmt, d);
  }

  lemma ShownSkills(fmt: string -> string, d: ResumeData)
    ensures Shown(fmt, d, Lines(Group)) == seq(|d.skills|, i requires 0 <= i < |d.skills| => d.skills[i].category)
    ensures Shown(fmt, d, Chips) == AllItems(d.skills)
  {
    assert Shown(fmt, d, Lines(Group)) == ChipSkillsTexts(d.skills, Lines(Group)) by {
      var k := Lines(Group);
      assert ExperienceTexts(fmt, Marker, d.experience, k) == StackedEducationTexts(fmt, d.education, k) == [];
      assert StackedCertificationTexts(fmt, d.certifications, k) == ProjectTexts(TechLabel, d.projects, k) == [];
    }
    assert Shown(fmt, d, Chips) == ChipSkillsTexts(d.skills, Chips) by {
      var k := Chips;
      assert ExperienceTexts(fmt, Marker, d.experience, k) == StackedEducationTexts(fmt, d.education, k) == [];
      assert StackedCertificationTexts(fmt, d.certifications, k) == ProjectTexts(TechLabel, d.projects, k) == [];
    }
  }

  /** Each category is shown as a heading of its own, and every item of every
      category, empty ones included, as a chip. */
  lemma ShowsSkills(fmt: string -> string, d: ResumeData)
    ensures Select(Render(fmt, d), Lines(Group)) ==
      seq(|d.skills|, i requires 0 <= i < |d.skills| => d.skills[i].category)
    ensures Select(Render(fmt, d), Chips) == AllItems(d.skills)
  {
    RenderSelect(fmt, d, Lines(Group));
    RenderSelect(fmt, d, Chips);
    ShownSkills(fmt, d);
  }

  lemma ShownLinks(fmt: string -> string, d: ResumeData)
    ensures Shown(fmt, d, Lines(ProjectUrl)) == Concat(d.projects, (p: Project) => LinkLines(p.link))
    ensures Shown(fmt, d, Lines(CertUrl)) == Concat(d.certifications, (c: Certification) => LinkLines(c.link))
  {
    forall k | k == Lines(ProjectUrl) || k == Lines(CertUrl)
      ensures HeaderTexts(d.personalInfo, Tag, k) == SummaryTexts(SummaryTitle, d.personalInfo.summary, k) == []
      ensures ExperienceTexts(fmt, Marker, d.experience, k) == StackedEducationTexts(fmt, d.education, k) == []
      ensures ChipSkillsTexts(d.skills, k) == []
    {
    }
  }

  /** Project and certification links appear exactly when truthy. */
  lemma ShowsLinks(fmt: string -> string, d: ResumeData)
    ensures Select(Render(fmt, d), Lines(ProjectUrl)) == Concat(d.projects, (p: Project) => LinkLines(p.link))
    ensures Select(Render(fmt, d), Lines(CertUrl)) == Concat(d.certifications, (c: Certification) => LinkLines(c.link))
  {
    RenderSelect(fmt, d, Lines(ProjectUrl));
    RenderSelect(fmt, d, Lines(CertUrl));
    ShownLinks(fmt, d);
  }
}
