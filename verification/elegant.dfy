/** The elegant template: a centred header whose contact values are parted by
    `|` separators, a quoted summary without a title, skills joined on one
    line per category, and projects and certifications side by side at the
    end. */
module ElegantTemplate {
  import opened Strings
  import opened Resume
  import opened Blocks
  import opened Layout
  import opened Sections

  /** `•` */
  const Marker: string := "\U{2022}"
  /** ` • `, between the items of a skill category. */
  const ItemSeparator: string := " \U{2022} "

  const ExperienceTitle: string := "Professional Experience"
  const EducationTitle: string := "Education"
  const SkillsTitle: string := "Technical Skills"
  const ProjectsTitle: string := "Projects"
  const CertificationsTitle: string := "Certifications"
  /** The technologies of a project are shown without a label. */
  const TechLabel: string := ""

  // ---------------------------------------------------------------------
  // The header: email, `|` phone, `|` location on one row, LinkedIn and
  // `|` website on the next. Each separator depends only on the field it
  // precedes.

  /** The value of a contact field, present exactly when non-empty. */
  function ContactLine(p: PersonalInfo, f: PersonalField): seq<Block> {
    Opt(GetPersonal(p, f) != "", Line(Contact(f), GetPersonal(p, f)))
  }

  /** A contact value preceded by a separator, both present exactly when the
      value is non-empty. */
  function Separated(p: PersonalInfo, f: PersonalField): seq<Block> {
    Opt(GetPersonal(p, f) != "", Separator) + ContactLine(p, f)
  }

  /** Email, then phone and location each behind a separator. */
  function FirstRow(p: PersonalInfo): seq<Block> {
    ContactLine(p, Email) + Separated(p, Phone) + Separated(p, Location)
  }

  /** LinkedIn, then the website behind a separator. */
  function SecondRow(p: PersonalInfo): seq<Block> {
    ContactLine(p, LinkedIn) + Separated(p, Website)
  }

  function Header(p: PersonalInfo): seq<Block> {
    [Name(p.fullName)] + FirstRow(p) + SecondRow(p)
  }

  /** What the part for field `g` shows under the contact kind of field
      `f`: the value of `g`, when `g` is `f` and the value is non-empty. */
  function Own(p: PersonalInfo, g: PersonalField, f: PersonalField): seq<string> {
    if f == g && GetPersonal(p, g) != "" then [GetPersonal(p, g)] else []
  }

  lemma ContactLineSelect(p: PersonalInfo, f: PersonalField, k: Kind)
    ensures Select(ContactLine(p, f), k) ==
      if k == Lines(Contact(f)) && GetPersonal(p, f) != "" then [GetPersonal(p, f)] else []
  {
    OptLineSelect(GetPersonal(p, f) != "", Contact(f), GetPersonal(p, f), k);
  }

  lemma SeparatedSelect(p: PersonalInfo, f: PersonalField, k: Kind)
    ensures Select(Separated(p, f), k) ==
      if k == Separators && GetPersonal(p, f) != "" then ["|"]
      else if k == Lines(Contact(f)) && GetPersonal(p, f) != "" then [GetPersonal(p, f)]
      else []
  {
    OptSelect(GetPersonal(p, f) != "", Separator, k);
    ContactLineSelect(p, f, k);
    SelectAppend(Opt(GetPersonal(p, f) != "", Separator), ContactLine(p, f), k);
  }

  /** Under a contact kind, a contact line shows only its own value. */
  lemma ContactLineOwn(p: PersonalInfo, g: PersonalField, f: PersonalField)
    ensures Select(ContactLine(p, g), Lines(Contact(f))) == Own(p, g, f)
  {
    ContactLineSelect(p, g, Lines(Contact(f)));
  }

  /** Under a contact kind, a separated value shows only its own value. */
  lemma SeparatedOwn(p: PersonalInfo, g: PersonalField, f: PersonalField)
    ensures Select(Separated(p, g), Lines(Contact(f))) == Own(p, g, f)
  {
    SeparatedSelect(p, g, Lines(Contact(f)));
  }

  /** Each piece of the header under kind `k`. */
  lemma HeaderParts(p: PersonalInfo, k: Kind)
    ensures Select(Header(p), k) == Select([Name(p.fullName)], k) + Select(FirstRow(p), k) + Select(SecondRow(p), k)
    ensures Select(FirstRow(p), k) ==
      Select(ContactLine(p, Email), k) + Select(Separated(p, Phone), k) + Select(Separated(p, Location), k)
    ensures Select(SecondRow(p), k) == Select(ContactLine(p, LinkedIn), k) + Select(Separated(p, Website), k)
  {
    SelectParts3([Name(p.fullName)], FirstRow(p), SecondRow(p), k);
    SelectParts3(ContactLine(p, Email), Separated(p, Phone), Separated(p, Location), k);
    SelectAppend(ContactLine(p, LinkedIn), Separated(p, Website), k);
  }

  /** Under any kind but the name's, the header shows what its two rows
      show. */
  lemma HeaderRows(p: PersonalInfo, k: Kind)
    requires k != Names
    ensures Select(Header(p), k) == Select(FirstRow(p), k) + Select(SecondRow(p), k)
  {
    SelectParts3([Name(p.fullName)], FirstRow(p), SecondRow(p), k);
    SelectOne(Name(p.fullName), k);
    EmptyFront(Select([Name(p.fullName)], k), Select(FirstRow(p), k));
  }

  /** Under a contact kind, the first row shows what its three fields' own
      parts show, in order. */
  lemma FirstRowOwn(p: PersonalInfo, f: PersonalField)
    ensures Select(FirstRow(p), Lines(Contact(f))) == Own(p, Email, f) + Own(p, Phone, f) + Own(p, Location, f)
  {
    SelectParts3(ContactLine(p, Email), Separated(p, Phone), Separated(p, Location), Lines(Contact(f)));
    ContactLineOwn(p, Email, f);
    SeparatedOwn(p, Phone, f);
    SeparatedOwn(p, Location, f);
  }

  /** Likewise for the second row and its two fields. */
  lemma SecondRowOwn(p: PersonalInfo, f: PersonalField)
    ensures Select(SecondRow(p), Lines(Contact(f))) == Own(p, LinkedIn, f) + Own(p, Website, f)
  {
    SelectAppend(ContactLine(p, LinkedIn), Separated(p, Website), Lines(Contact(f)));
    ContactLineOwn(p, LinkedIn, f);
    SeparatedOwn(p, Website, f);
  }

  /** Of the five contact parts, only the field's own can show anything. */
  lemma OwnSum(p: PersonalInfo, f: PersonalField)
    ensures Own(p, Email, f) + Own(p, Phone, f) + Own(p, Location, f) + (Own(p, LinkedIn, f) + Own(p, Website, f))
      == ContactLines(p, Plain, f)
  {
    PlainContactLines(p, f);
    match f {
      case Email => assert Own(p, Email, f) + [] + [] + ([] + []) == Own(p, Email, f);
      case Phone => assert [] + Own(p, Phone, f) + [] + ([] + []) == Own(p, Phone, f);
      case Location => assert [] + [] + Own(p, Location, f) + ([] + []) == Own(p, Location, f);
      case LinkedIn => assert [] + [] + [] + (Own(p, LinkedIn, f) + []) == Own(p, LinkedIn, f);
      case Website => assert [] + [] + [] + ([] + Own(p, Website, f)) == Own(p, Website, f);
      case FullName =>
      case Summary =>
    }
  }

  /** A contact value shows exactly when non-empty. */
  lemma HeaderContactSelect(p: PersonalInfo, f: PersonalField)
    ensures Select(Header(p), Lines(Contact(f))) == ContactLines(p, Plain, f)
  {
    HeaderRows(p, Lines(Contact(f)));
    FirstRowOwn(p, f);
    SecondRowOwn(p, f);
    OwnSum(p, f);
  }

  /** Under any kind but contacts and separators, only the name shows. */
  lemma HeaderOtherSelect(p: PersonalInfo, k: Kind)
    requires k != Separators && !(k.Lines? && k.slot.Contact?)
    ensures Select(Header(p), k) == if k == Names then [p.fullName] else []
  {
    SelectParts3([Name(p.fullName)], FirstRow(p), SecondRow(p), k);
    SelectOne(Name(p.fullName), k);
    RowsQuiet(p, k);
    var name := Select([Name(p.fullName)], k);
    EmptyBack(name, Select(FirstRow(p), k));
    EmptyBack(name, Select(SecondRow(p), k));
  }

  /** Neither row shows anything but contacts and separators. */
  lemma RowsQuiet(p: PersonalInfo, k: Kind)
    requires k != Separators && !(k.Lines? && k.slot.Contact?)
    ensures Select(FirstRow(p), k) == [] && Select(SecondRow(p), k) == []
  {
    HeaderParts(p, k);
    ContactLineSelect(p, Email, k);
    SeparatedSelect(p, Phone, k);
    SeparatedSelect(p, Location, k);
    ContactLineSelect(p, LinkedIn, k);
    SeparatedSelect(p, Website, k);
  }

  /** Apart from separators, the header shows the name and each non-empty
      contact value, as the other templates' headers do with no tag. */
  lemma HeaderSelect(p: PersonalInfo, k: Kind)
    requires k != Separators
    ensures Select(Header(p), k) == HeaderTexts(p, Plain, k)
  {
    if k.Lines? && k.slot.Contact? {
      HeaderContactSelect(p, k.slot.field);
    } else {
      HeaderOtherSelect(p, k);
    }
  }

  /** One separator in front of each non-empty phone, location and website,
      whether or not anything stands before it. */
  lemma HeaderSeparators(p: PersonalInfo)
    ensures |Select(Header(p), Separators)| == Present(p.phone) + Present(p.location) + Present(p.website)
  {
    HeaderSeparatorParts(p);
    SeparatorCount(p, Phone);
    SeparatorCount(p, Location);
    SeparatorCount(p, Website);
  }

  /** Only the separated values bring separators. */
  lemma HeaderSeparatorParts(p: PersonalInfo)
    ensures |Select(Header(p), Separators)| == |Select(Separated(p, Phone), Separators)|
      + |Select(Separated(p, Location), Separators)| + |Select(Separated(p, Website), Separators)|
  {
    var k := Separators;
    HeaderParts(p, k);
    SelectOne(Name(p.fullName), k);
    ContactLineSelect(p, Email, k);
    ContactLineSelect(p, LinkedIn, k);
  }

  /** One for a non-empty value, none for an empty one. */
  function Present(v: string): nat {
    if v != "" then 1 else 0
  }

  /** A separated value brings one separator when non-empty, none
      otherwise. */
  lemma SeparatorCount(p: PersonalInfo, f: PersonalField)
    ensures |Select(Separated(p, f), Separators)| == Present(GetPersonal(p, f))
  {
    SeparatedSelect(p, f, Separators);
  }

  /** Without an email but with a phone, the first row opens with a
      separator. */
  lemma LeadingSeparator(p: PersonalInfo)
    requires p.email == "" && p.phone != ""
    ensures Header(p)[1] == Separator
  {
    var row := FirstRow(p);
    assert ContactLine(p, Email) == [];
    assert Separated(p, Phone) == [Separator] + ContactLine(p, Phone);
    assert row == [Separator] + ContactLine(p, Phone) + Separated(p, Location);
    var h := Header(p);
    assert h == [Name(p.fullName)] + row + SecondRow(p);
    assert h[1] == row[0];
  }

  // ---------------------------------------------------------------------
  // The summary: in quotation marks, with no title.

  function SummaryBlock(summary: string): seq<Block> {
    Opt(summary != "", Line(SummaryText, "\"" + summary + "\""))
  }

  /** The quoted summary, present exactly when the summary is non-empty. */
  function SummaryLines(summary: string): (lines: seq<string>)
    ensures lines != [] <==> summary != ""
  {
    if summary != "" then ["\"" + summary + "\""] else []
  }

  // ---------------------------------------------------------------------
  // Skills: the category, then its non-empty items joined by ` • `.

  function ItemsLine(s: SkillCategory): string {
    Join(NonEmpty(s.items), ItemSeparator)
  }

  /** An empty item adds nothing to the line. */
  lemma ItemsLineSkipsEmpty(s: SkillCategory, before: seq<string>, after: seq<string>)
    requires s.items == before + [""] + after
    ensures ItemsLine(s) == ItemsLine(s.(items := before + after))
  {
    NonEmptyAppend(before, [""]);
    NonEmptyAppend(before + [""], after);
    NonEmptyAppend(before, after);
    assert NonEmpty([""]) == [] by { assert [""][1..] == []; }
    assert NonEmpty(before + [""]) == NonEmpty(before);
  }

  function SkillEntry(s: SkillCategory): seq<Block> {
    [Line(Group, s.category), Line(SkillList, ItemsLine(s))]
  }

  lemma SkillSelect(s: SkillCategory, k: Kind)
    ensures Select(SkillEntry(s), k) ==
      if k == Lines(Group) then [s.category]
      else if k == Lines(SkillList) then [ItemsLine(s)]
      else []
  {
    LineSelect(Group, s.category, k);
    LineSelect(SkillList, ItemsLine(s), k);
    assert SkillEntry(s) == [Line(Group, s.category)] + [Line(SkillList, ItemsLine(s))];
    SelectAppend([Line(Group, s.category)], [Line(SkillList, ItemsLine(s))], k);
  }

  function SkillTexts(xs: seq<SkillCategory>, k: Kind): seq<string> {
    if k == Lines(Group) then seq(|xs|, i requires 0 <= i < |xs| => xs[i].category)
    else if k == Lines(SkillList) then seq(|xs|, i requires 0 <= i < |xs| => ItemsLine(xs[i]))
    else []
  }

  function SkillItem(): (nat, SkillCategory) -> seq<Block> {
    (i: nat, s: SkillCategory) => SkillEntry(s)
  }

  lemma SkillsList(xs: seq<SkillCategory>, k: Kind)
    ensures Select(ListSection(SkillsTitle, xs, SkillItem()), k) == TitleOf(xs, SkillsTitle, k) + SkillTexts(xs, k)
  {
    var f := SkillItem();
    if k == Lines(Group) {
      forall i: nat, x: SkillCategory ensures Select(f(i, x), k) == [x.category] { SkillSelect(x, k); }
      ListSingles(SkillsTitle, xs, f, k, (x: SkillCategory) => x.category);
    } else if k == Lines(SkillList) {
      forall i: nat, x: SkillCategory ensures Select(f(i, x), k) == [ItemsLine(x)] { SkillSelect(x, k); }
      ListSingles(SkillsTitle, xs, f, k, ItemsLine);
    } else {
      forall i: nat, x: SkillCategory ensures Select(f(i, x), k) == [] { SkillSelect(x, k); }
      ListNone(SkillsTitle, xs, f, k);
    }
  }

  // ---------------------------------------------------------------------
  // Projects: the name, the technologies if any, the description if any,
  // then the link if any.

  function ProjectBlocks(p: Project): seq<Block> {
    [Line(ProjectTitle, p.name)] + ProjectDetails(p, TechLabel) + LinkLine(ProjectUrl, p.link)
  }

  /** Shown kind by kind, the entry holds what the shared project entry
      holds; only the link moves to the end. */
  lemma ProjectBlocksSelect(p: Project, k: Kind)
    ensures Select(ProjectBlocks(p), k) == Select(ProjectEntry(p, TechLabel), k)
  {
    LineSelect(ProjectTitle, p.name, k);
    ProjectDetailsSelect(p, TechLabel, k);
    LinkSelect(ProjectUrl, p.link, k);
    SelectParts3([Line(ProjectTitle, p.name)], ProjectDetails(p, TechLabel), LinkLine(ProjectUrl, p.link), k);
    SelectParts3([Line(ProjectTitle, p.name)], LinkLine(ProjectUrl, p.link), ProjectDetails(p, TechLabel), k);
    var title, link, details := Select([Line(ProjectTitle, p.name)], k), Select(LinkLine(ProjectUrl, p.link), k),
      Select(ProjectDetails(p, TechLabel), k);
    if k == Lines(ProjectTitle) {
      assert link == [] && details == [];
    } else if k == Lines(ProjectUrl) {
      assert title == [] && details == [];
    } else {
      assert title == [] && link == [];
    }
  }

  // ---------------------------------------------------------------------
  // The page.

  function ExperienceItem(fmt: string -> string): (nat, Experience) -> seq<Block> {
    (i: nat, e: Experience) => ExperienceEntry(fmt, e, Marker)
  }

  function EducationItem(fmt: string -> string): (nat, Education) -> seq<Block> {
    (i: nat, e: Education) => StackedEducation(fmt, e, false)
  }

  function ProjectItem(): (nat, Project) -> seq<Block> {
    (i: nat, p: Project) => ProjectBlocks(p)
  }

  function CertificationItem(fmt: string -> string): (nat, Certification) -> seq<Block> {
    (i: nat, c: Certification) => StackedCertification(fmt, c)
  }

  /** Projects and certifications share a wrapper shown when either list is
      non-empty. */
  function Closing(fmt: string -> string, d: ResumeData): seq<Block> {
    if |d.projects| > 0 || |d.certifications| > 0 then
      ListSection(ProjectsTitle, d.projects, ProjectItem())
      + ListSection(CertificationsTitle, d.certifications, CertificationItem(fmt))
    else []
  }

  /** The wrapper shows nothing of its own: without it the page would be the
      same. */
  lemma ClosingUnwrapped(fmt: string -> string, d: ResumeData)
    ensures Closing(fmt, d) ==
      ListSection(ProjectsTitle, d.projects, ProjectItem())
      + ListSection(CertificationsTitle, d.certifications, CertificationItem(fmt))
  {
    if !(|d.projects| > 0 || |d.certifications| > 0) {
      assert ListSection(ProjectsTitle, d.projects, ProjectItem()) == [];
      assert ListSection(CertificationsTitle, d.certifications, CertificationItem(fmt)) == [];
    }
  }

  /** The page: header, summary, experience, education, skills, then projects
      and certifications; every section but the header only when it has
      content. */
  function Render(fmt: string -> string, d: ResumeData): seq<Block> {
    Page([
      Header(d.personalInfo),
      SummaryBlock(d.personalInfo.summary),
      ListSection(ExperienceTitle, d.experience, ExperienceItem(fmt)),
      ListSection(EducationTitle, d.education, EducationItem(fmt)),
      ListSection(SkillsTitle, d.skills, SkillItem()),
      Closing(fmt, d)])
  }

  /** What the page shows of each kind other than separators, section by
      section. */
  function Shown(fmt: string -> string, d: ResumeData, k: Kind): seq<string> {
    HeaderTexts(d.personalInfo, Plain, k)
    + (if k == Lines(SummaryText) then SummaryLines(d.personalInfo.summary) else [])
    + (TitleOf(d.experience, ExperienceTitle, k) + ExperienceTexts(fmt, Marker, d.experience, k))
    + (TitleOf(d.education, EducationTitle, k) + StackedEducationTexts(fmt, d.education, k))
    + (TitleOf(d.skills, SkillsTitle, k) + SkillTexts(d.skills, k))
    + ((TitleOf(d.projects, ProjectsTitle, k) + ProjectTexts(TechLabel, d.projects, k))
       + (TitleOf(d.certifications, CertificationsTitle, k) + StackedCertificationTexts(fmt, d.certifications, k)))
  }

  /** What the closing part shows. */
  lemma ClosingSelect(fmt: string -> string, d: ResumeData, k: Kind)
    ensures Select(Closing(fmt, d), k) ==
      (TitleOf(d.projects, ProjectsTitle, k) + ProjectTexts(TechLabel, d.projects, k))
      + (TitleOf(d.certifications, CertificationsTitle, k) + StackedCertificationTexts(fmt, d.certifications, k))
  {
    ClosingUnwrapped(fmt, d);
    SelectAppend(ListSection(ProjectsTitle, d.projects, ProjectItem()),
      ListSection(CertificationsTitle, d.certifications, CertificationItem(fmt)), k);
    forall i: nat, x: Project ensures Select(ProjectItem()(i, x), k) == Select(ProjectEntry(x, TechLabel), k) {
      ProjectBlocksSelect(x, k);
    }
    ProjectList(ProjectsTitle, d.projects, ProjectItem(), TechLabel, k);
    StackedCertificationList(CertificationsTitle, d.certifications, CertificationItem(fmt), fmt, k);
  }

  lemma RenderSelect(fmt: string -> string, d: ResumeData, k: Kind)
    requires k != Separators
    ensures Select(Render(fmt, d), k) == Shown(fmt, d, k)
  {
    var p := d.personalInfo;
    PageSelect6(Header(p), SummaryBlock(p.summary),
      ListSection(ExperienceTitle, d.experience, ExperienceItem(fmt)),
      ListSection(EducationTitle, d.education, EducationItem(fmt)),
      ListSection(SkillsTitle, d.skills, SkillItem()),
      Closing(fmt, d), k);
    HeaderSelect(p, k);
    OptLineSelect(p.summary != "", SummaryText, "\"" + p.summary + "\"", k);
    ExperienceList(ExperienceTitle, d.experience, ExperienceItem(fmt), fmt, Marker, k);
    StackedEducationList(EducationTitle, d.education, EducationItem(fmt), fmt, false, k);
    SkillsList(d.skills, k);
    ClosingSelect(fmt, d, k);
  }

  /** The section titles, in page order, of the sections that have content;
      the summary has none. */
  function Titles(d: ResumeData): seq<string> {
    Titled(d.experience, ExperienceTitle) + Titled(d.education, EducationTitle)
    + Titled(d.skills, SkillsTitle) + Titled(d.projects, ProjectsTitle)
    + Titled(d.certifications, CertificationsTitle)
  }

  // Each property below is first worked out on `Shown`, then carried over to
  // the page by `RenderSelect`.

  lemma ShownName(fmt: string -> string, d: ResumeData)
    ensures Shown(fmt, d, Names) == [d.personalInfo.fullName]
  {
    var k := Names;
    assert ExperienceTexts(fmt, Marker, d.experience, k) == StackedEducationTexts(fmt, d.education, k) == [];
    assert ProjectTexts(TechLabel, d.projects, k) == StackedCertificationTexts(fmt, d.certifications, k) == [];
    assert SkillTexts(d.skills, k) == [];
  }

  /** The full name heads the page, even when empty. */
  lemma ShowsName(fmt: string -> string, d: ResumeData)
    ensures Select(Render(fmt, d), Names) == [d.personalInfo.fullName]
  {
    RenderSelect(fmt, d, Names);
    ShownName(fmt, d);
  }

  lemma ShownTitles(fmt: string -> string, d: ResumeData)
    ensures Shown(fmt, d, Headings) == Titles(d)
  {
    var k := Headings;
    assert HeaderTexts(d.personalInfo, Plain, k) == [];
    assert ExperienceTexts(fmt, Marker, d.experience, k) == StackedEducationTexts(fmt, d.education, k) == [];
    assert ProjectTexts(TechLabel, d.projects, k) == StackedCertificationTexts(fmt, d.certifications, k) == [];
    assert SkillTexts(d.skills, k) == [];
  }

  /** The section titles are exactly those of the non-empty sections, in
      page order. */
  lemma ShowsTitles(fmt: string -> string, d: ResumeData)
    ensures Select(Render(fmt, d), Headings) == Titles(d)
  {
    RenderSelect(fmt, d, Headings);
    ShownTitles(fmt, d);
  }

  lemma ShownSummary(fmt: string -> string, d: ResumeData)
    ensures Shown(fmt, d, Lines(SummaryText)) == SummaryLines(d.personalInfo.summary)
  {
    var k := Lines(SummaryText);
    assert ExperienceTexts(fmt, Marker, d.experience, k) == StackedEducationTexts(fmt, d.education, k) == [];
    assert ProjectTexts(TechLabel, d.projects, k) == StackedCertificationTexts(fmt, d.certifications, k) == [];
  }

  /** The summary is shown in quotation marks exactly when non-empty. */
  lemma ShowsSummary(fmt: string -> string, d: ResumeData)
    ensures Select(Render(fmt, d), Lines(SummaryText)) == SummaryLines(d.personalInfo.summary)
  {
    RenderSelect(fmt, d, Lines(SummaryText));
    ShownSummary(fmt, d);
  }

  lemma ShownContact(fmt: string -> string, d: ResumeData, f: PersonalField)
    ensures Shown(fmt, d, Lines(Contact(f))) == ContactLines(d.personalInfo, Plain, f)
  {
    var k := Lines(Contact(f));
    assert ExperienceTexts(fmt, Marker, d.experience, k) == [];
    assert SkillTexts(d.skills, k) == [];
    assert StackedEducationTexts(fmt, d.education, k) == [];
    assert StackedCertificationTexts(fmt, d.certifications, k) == [];
    assert ProjectTexts(TechLabel, d.projects, k) == [];
  }

  /** Each contact field is shown exactly when it is non-empty. */
  lemma ShowsContacts(fmt: string -> string, d: ResumeData)
    ensures forall f: PersonalField :: Select(Render(fmt, d), Lines(Contact(f))) == ContactLines(d.personalInfo, Plain, f)
  {
    forall f: PersonalField
      ensures Select(Render(fmt, d), Lines(Contact(f))) == ContactLines(d.personalInfo, Plain, f)
    {
      RenderSelect(fmt, d, Lines(Contact(f)));
      ShownContact(fmt, d, f);
    }
  }

  /** Neither the summary, the experiences nor the education hold a
      separator. */
  lemma NoSeparatorsAbove(fmt: string -> string, d: ResumeData)
    ensures Select(SummaryBlock(d.personalInfo.summary), Separators) == []
    ensures Select(ListSection(ExperienceTitle, d.experience, ExperienceItem(fmt)), Separators) == []
    ensures Select(ListSection(EducationTitle, d.education, EducationItem(fmt)), Separators) == []
  {
    var k := Separators;
    OptLineSelect(d.personalInfo.summary != "", SummaryText, "\"" + d.personalInfo.summary + "\"", k);
    ExperienceList(ExperienceTitle, d.experience, ExperienceItem(fmt), fmt, Marker, k);
    StackedEducationList(EducationTitle, d.education, EducationItem(fmt), fmt, false, k);
  }

  /** Neither the skills, the projects nor the certifications hold a
      separator. */
  lemma NoSeparatorsBelow(fmt: string -> string, d: ResumeData)
    ensures Select(ListSection(SkillsTitle, d.skills, SkillItem()), Separators) == []
    ensures Select(Closing(fmt, d), Separators) == []
  {
    SkillsList(d.skills, Separators);
    ClosingSelect(fmt, d, Separators);
  }

  /** The page holds one separator per non-empty phone, location and
      website. */
  lemma ShowsSeparators(fmt: string -> string, d: ResumeData)
    ensures |Select(Render(fmt, d), Separators)| ==
      Present(d.personalInfo.phone) + Present(d.personalInfo.location) + Present(d.personalInfo.website)
  {
    var p := d.personalInfo;
    PageSelect6(Header(p), SummaryBlock(p.summary),
      ListSection(ExperienceTitle, d.experience, ExperienceItem(fmt)),
      ListSection(EducationTitle, d.education, EducationItem(fmt)),
      ListSection(SkillsTitle, d.skills, SkillItem()),
      Closing(fmt, d), Separators);
    HeaderSeparators(p);
    NoSeparatorsAbove(fmt, d);
    NoSeparatorsBelow(fmt, d);
  }

  lemma ShownDescriptions(fmt: string -> string, d: ResumeData)
    ensures Shown(fmt, d, Bullets(Marker)) == Concat(d.experience, ExperienceLines)
  {
    var k := Bullets(Marker);
    assert HeaderTexts(d.personalInfo, Plain, k) == [];
    assert StackedEducationTexts(fmt, d.education, k) == SkillTexts(d.skills, k) == [];
    assert ProjectTexts(TechLabel, d.projects, k) == StackedCertificationTexts(fmt, d.certifications, k) == [];
  }

  /** Every line of every description becomes one `•` item, in order. */
  lemma ShowsDescriptions(fmt: string -> string, d: ResumeData)
    ensures Select(Render(fmt, d), Bullets(Marker)) == Concat(d.experience, ExperienceLines)
  {
    RenderSelect(fmt, d, Bullets(Marker));
    ShownDescriptions(fmt, d);
  }

  lemma ShownGrades(fmt: string -> string, d: ResumeData)
    ensures Shown(fmt, d, Lines(Grade)) == Concat(d.education, GradeLines)
  {
    var k := Lines(Grade);
    assert ExperienceTexts(fmt, Marker, d.experience, k) == SkillTexts(d.skills, k) == [];
    assert ProjectTexts(TechLabel, d.projects, k) == StackedCertificationTexts(fmt, d.certifications, k) == [];
  }

  /** A grade line appears for exactly the entries with a truthy `gpa`. */
  lemma ShowsGrades(fmt: string -> string, d: ResumeData)
    ensures Select(Render(fmt, d), Lines(Grade)) == Concat(d.education, GradeLines)
  {
    RenderSelect(fmt, d, Lines(Grade));
    ShownGrades(fmt, d);
  }

  lemma ShownSkills(fmt: string -> string, d: ResumeData)
    ensures Shown(fmt, d, Lines(SkillList)) == seq(|d.skills|, i requires 0 <= i < |d.skills| => ItemsLine(d.skills[i]))
  {
    var k := Lines(SkillList);
    assert ExperienceTexts(fmt, Marker, d.experience, k) == StackedEducationTexts(fmt, d.education, k) == [];
    assert ProjectTexts(TechLabel, d.projects, k) == StackedCertificationTexts(fmt, d.certifications, k) == [];
  }

  /** One line of items per category, in order. */
  lemma ShowsSkills(fmt: string -> string, d: ResumeData)
    ensures Select(Render(fmt, d), Lines(SkillList)) ==
      seq(|d.skills|, i requires 0 <= i < |d.skills| => ItemsLine(d.skills[i]))
  {
    RenderSelect(fmt, d, Lines(SkillList));
    ShownSkills(fmt, d);
  }

  lemma ShownLinks(fmt: string -> string, d: ResumeData)
    ensures Shown(fmt, d, Lines(ProjectUrl)) == Concat(d.projects, (p: Project) => LinkLines(p.link))
    ensures Shown(fmt, d, Lines(CertUrl)) == Concat(d.certifications, (c: Certification) => LinkLines(c.link))
  {
    ShownProjectLinks(fmt, d);
    ShownCertificationLinks(fmt, d);
  }

  lemma ShownProjectLinks(fmt: string -> string, d: ResumeData)
    ensures Shown(fmt, d, Lines(ProjectUrl)) == Concat(d.projects, (p: Project) => LinkLines(p.link))
  {
    var k := Lines(ProjectUrl);
    assert HeaderTexts(d.personalInfo, Plain, k) == [];
    assert ExperienceTexts(fmt, Marker, d.experience, k) == StackedEducationTexts(fmt, d.education, k) == [];
    assert SkillTexts(d.skills, k) == StackedCertificationTexts(fmt, d.certifications, k) == [];
  }

  lemma ShownCertificationLinks(fmt: string -> string, d: ResumeData)
    ensures Shown(fmt, d, Lines(CertUrl)) == Concat(d.certifications, (c: Certification) => LinkLines(c.link))
  {
    var k := Lines(CertUrl);
    assert HeaderTexts(d.personalInfo, Plain, k) == [];
    assert ExperienceTexts(fmt, Marker, d.experience, k) == StackedEducationTexts(fmt, d.education, k) == [];
    assert SkillTexts(d.skills, k) == ProjectTexts(TechLabel, d.projects, k) == [];
  }


  /** Project and certification links appear exactly when truthy. */
  lemma ShowsLinks(fmt: string -> string, d: ResumeData)
    ensures Select(Render(fmt, d), Lines(ProjectUrl)) == Concat(d.projects, (p: Project) => LinkLines(p.link))
    ensures Select(Render(fmt, d), Lines(CertUrl)) == Concat(d.certifications, (c: Certification) => LinkLines(c.link))
  {
    RenderSelect(fmt, d, Lines(ProjectUrl));
    RenderSelect(fmt, d, Lines(CertUrl));
    ShownLinks(fmt, d);
  }
}
