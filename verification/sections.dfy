/** What a whole list section shows, kind by kind: for each entry layout of
    the shared pieces, the texts of all entries taken together. A template
    whose entries add decorations (a connector, an accent) uses the same
    lemmas for every kind its decorations do not touch. */
module Sections {
  import opened Strings
  import opened Resume
  import opened Blocks
  import opened Layout

  /** What the header shows: the name, and each non-empty contact field
      under its tag. */
  function HeaderTexts(p: PersonalInfo, tag: PersonalField -> string, k: Kind): seq<string> {
    if k == Names then [p.fullName]
    else if k.Lines? && k.slot.Contact? then ContactLines(p, tag, k.slot.field)
    else []
  }

  /** What the summary section shows: its title and the text, when non-empty. */
  function SummaryTexts(title: string, summary: string, k: Kind): seq<string> {
    if summary != "" && k == Headings then [title]
    else if summary != "" && k == Lines(SummaryText) then [summary]
    else []
  }

  /** The section title, under the heading kind only. */
  function TitleOf<T>(xs: seq<T>, title: string, k: Kind): seq<string> {
    if k == Headings then Titled(xs, title) else []
  }

  /** A list whose entries each show one text of kind `k`. */
  lemma ListSingles<T>(title: string, xs: seq<T>, f: (nat, T) -> seq<Block>, k: Kind, h: T -> string)
    requires forall i: nat, x: T :: Select(f(i, x), k) == [h(x)]
    ensures Select(ListSection(title, xs, f), k) ==
      TitleOf(xs, title, k) + seq(|xs|, i requires 0 <= i < |xs| => h(xs[i]))
  {
    var g := (x: T) => [h(x)];
    ListSelect(title, xs, f, k, g);
    ConcatSingles(xs, g, h);
  }

  /** A list whose entries show `g(x)` of kind `k`. */
  lemma ListConcat<T>(title: string, xs: seq<T>, f: (nat, T) -> seq<Block>, k: Kind, g: T -> seq<string>)
    requires forall i: nat, x: T :: Select(f(i, x), k) == g(x)
    ensures Select(ListSection(title, xs, f), k) == TitleOf(xs, title, k) + Concat(xs, g)
  {
    ListSelect(title, xs, f, k, g);
  }

  /** A list whose entries show nothing of kind `k` shows at most its title. */
  lemma ListNone<T>(title: string, xs: seq<T>, f: (nat, T) -> seq<Block>, k: Kind)
    requires forall i: nat, x: T :: Select(f(i, x), k) == []
    ensures Select(ListSection(title, xs, f), k) == TitleOf(xs, title, k)
  {
    var g := (x: T) => [];
    ListSelect(title, xs, f, k, g);
    ConcatEmpty(xs, g);
  }

  // ---------------------------------------------------------------------
  // Experience.

  function ExperienceTexts(fmt: string -> string, marker: string, xs: seq<Experience>, k: Kind): seq<string> {
    if k == Lines(Role) then seq(|xs|, i requires 0 <= i < |xs| => xs[i].position)
    else if k == Lines(Employer) then seq(|xs|, i requires 0 <= i < |xs| => xs[i].company)
    else if k == Lines(Period) then seq(|xs|, i requires 0 <= i < |xs| => ExperiencePeriod(fmt, xs[i]))
    else if k == Bullets(marker) then Concat(xs, ExperienceLines)
    else []
  }

  /** An experience list shows every position, every company and every
      period, one per entry, and every description line as a bullet. */
  lemma ExperienceList(title: string, xs: seq<Experience>, f: (nat, Experience) -> seq<Block>,
                       fmt: string -> string, marker: string, k: Kind)
    requires forall i: nat, x: Experience :: Select(f(i, x), k) == Select(ExperienceEntry(fmt, x, marker), k)
    ensures Select(ListSection(title, xs, f), k) == TitleOf(xs, title, k) + ExperienceTexts(fmt, marker, xs, k)
  {
    if k == Lines(Role) {
      forall i: nat, x: Experience ensures Select(f(i, x), k) == [x.position] { ExperienceSelect(fmt, x, marker, k); }
      ListSingles(title, xs, f, k, (x: Experience) => x.position);
    } else if k == Lines(Employer) {
      forall i: nat, x: Experience ensures Select(f(i, x), k) == [x.company] { ExperienceSelect(fmt, x, marker, k); }
      ListSingles(title, xs, f, k, (x: Experience) => x.company);
    } else if k == Lines(Period) {
      forall i: nat, x: Experience ensures Select(f(i, x), k) == [ExperiencePeriod(fmt, x)] { ExperienceSelect(fmt, x, marker, k); }
      ListSingles(title, xs, f, k, (x: Experience) => ExperiencePeriod(fmt, x));
    } else if k == Bullets(marker) {
      forall i: nat, x: Experience ensures Select(f(i, x), k) == ExperienceLines(x) { ExperienceSelect(fmt, x, marker, k); }
      ListConcat(title, xs, f, k, ExperienceLines);
    } else {
      forall i: nat, x: Experience ensures Select(f(i, x), k) == [] { ExperienceSelect(fmt, x, marker, k); }
      ListNone(title, xs, f, k);
    }
  }

  // ---------------------------------------------------------------------
  // Education.

  function StackedEducationTexts(fmt: string -> string, xs: seq<Education>, k: Kind): seq<string> {
    if k == Lines(DegreeTitle) then seq(|xs|, i requires 0 <= i < |xs| => xs[i].degree)
    else if k == Lines(FieldOfStudy) then seq(|xs|, i requires 0 <= i < |xs| => xs[i].field)
    else if k == Lines(School) then seq(|xs|, i requires 0 <= i < |xs| => xs[i].institution)
    else if k == Lines(Grade) then Concat(xs, GradeLines)
    else if k == Lines(Period) then seq(|xs|, i requires 0 <= i < |xs| => EducationPeriod(fmt, xs[i]))
    else []
  }

  /** A stacked education list shows every degree, field, institution and
      period, and a grade for exactly the entries with a truthy `gpa`,
      whichever of grade and period comes first. */
  lemma StackedEducationList(title: string, xs: seq<Education>, f: (nat, Education) -> seq<Block>,
                             fmt: string -> string, gradeFirst: bool, k: Kind)
    requires forall i: nat, x: Education :: Select(f(i, x), k) == Select(StackedEducation(fmt, x, gradeFirst), k)
    ensures Select(ListSection(title, xs, f), k) == TitleOf(xs, title, k) + StackedEducationTexts(fmt, xs, k)
  {
    if k == Lines(DegreeTitle) {
      forall i: nat, x: Education ensures Select(f(i, x), k) == [x.degree] { StackedEducationSelect(fmt, x, gradeFirst, k); }
      ListSingles(title, xs, f, k, (x: Education) => x.degree);
    } else if k == Lines(FieldOfStudy) {
      forall i: nat, x: Education ensures Select(f(i, x), k) == [x.field] { StackedEducationSelect(fmt, x, gradeFirst, k); }
      ListSingles(title, xs, f, k, (x: Education) => x.field);
    } else if k == Lines(School) {
      forall i: nat, x: Education ensures Select(f(i, x), k) == [x.institution] { StackedEducationSelect(fmt, x, gradeFirst, k); }
      ListSingles(title, xs, f, k, (x: Education) => x.institution);
    } else if k == Lines(Grade) {
      forall i: nat, x: Education ensures Select(f(i, x), k) == GradeLines(x) { StackedEducationSelect(fmt, x, gradeFirst, k); }
      ListConcat(title, xs, f, k, GradeLines);
    } else if k == Lines(Period) {
      forall i: nat, x: Education ensures Select(f(i, x), k) == [EducationPeriod(fmt, x)] { StackedEducationSelect(fmt, x, gradeFirst, k); }
      ListSingles(title, xs, f, k, (x: Education) => EducationPeriod(fmt, x));
    } else {
      forall i: nat, x: Education ensures Select(f(i, x), k) == [] { StackedEducationSelect(fmt, x, gradeFirst, k); }
      ListNone(title, xs, f, k);
    }
  }

  function InFieldEducationTexts(fmt: string -> string, xs: seq<Education>, k: Kind): seq<string> {
    if k == Lines(DegreeInField) then seq(|xs|, i requires 0 <= i < |xs| => xs[i].degree + " in " + xs[i].field)
    else if k == Lines(School) then seq(|xs|, i requires 0 <= i < |xs| => xs[i].institution)
    else if k == Lines(Grade) then Concat(xs, GradeLines)
    else if k == Lines(Period) then seq(|xs|, i requires 0 <= i < |xs| => EducationPeriod(fmt, xs[i]))
    else []
  }

  /** An education list in the `degree in field` layout. */
  lemma InFieldEducationList(title: string, xs: seq<Education>, f: (nat, Education) -> seq<Block>,
                             fmt: string -> string, k: Kind)
    requires forall i: nat, x: Education :: Select(f(i, x), k) == Select(InFieldEducation(fmt, x), k)
    ensures Select(ListSection(title, xs, f), k) == TitleOf(xs, title, k) + InFieldEducationTexts(fmt, xs, k)
  {
    if k == Lines(DegreeInField) {
      forall i: nat, x: Education ensures Select(f(i, x), k) == [x.degree + " in " + x.field] { InFieldEducationSelect(fmt, x, k); }
      ListSingles(title, xs, f, k, (x: Education) => x.degree + " in " + x.field);
    } else if k == Lines(School) {
      forall i: nat, x: Education ensures Select(f(i, x), k) == [x.institution] { InFieldEducationSelect(fmt, x, k); }
      ListSingles(title, xs, f, k, (x: Education) => x.institution);
    } else if k == Lines(Grade) {
      forall i: nat, x: Education ensures Select(f(i, x), k) == GradeLines(x) { InFieldEducationSelect(fmt, x, k); }
      ListConcat(title, xs, f, k, GradeLines);
    } else if k == Lines(Period) {
      forall i: nat, x: Education ensures Select(f(i, x), k) == [EducationPeriod(fmt, x)] { InFieldEducationSelect(fmt, x, k); }
      ListSingles(title, xs, f, k, (x: Education) => EducationPeriod(fmt, x));
    } else {
      forall i: nat, x: Education ensures Select(f(i, x), k) == [] { InFieldEducationSelect(fmt, x, k); }
      ListNone(title, xs, f, k);
    }
  }

  // ---------------------------------------------------------------------
  // Skills.

  function SkillLineTexts(xs: seq<SkillCategory>, k: Kind): seq<string> {
    if k == Lines(SkillList) then seq(|xs|, i requires 0 <= i < |xs| => SkillLine(xs[i])) else []
  }

  /** A list of `category: items` lines, one per category. */
  lemma SkillLineList(title: string, xs: seq<SkillCategory>, f: (nat, SkillCategory) -> seq<Block>, k: Kind)
    requires forall i: nat, x: SkillCategory :: Select(f(i, x), k) == Select(SkillLineEntry(x), k)
    ensures Select(ListSection(title, xs, f), k) == TitleOf(xs, title, k) + SkillLineTexts(xs, k)
  {
    if k == Lines(SkillList) {
      forall i: nat, x: SkillCategory ensures Select(f(i, x), k) == [SkillLine(x)] { SkillLineSelect(x, k); }
      ListSingles(title, xs, f, k, SkillLine);
    } else {
      forall i: nat, x: SkillCategory ensures Select(f(i, x), k) == [] { SkillLineSelect(x, k); }
      ListNone(title, xs, f, k);
    }
  }

  /** Every item of every category, in order, empty items included. */
  function AllItems(xs: seq<SkillCategory>): seq<string> {
    Concat(xs, (s: SkillCategory) => s.items)
  }

  function ChipSkillsTexts(xs: seq<SkillCategory>, k: Kind): seq<string> {
    if k == Lines(Group) then seq(|xs|, i requires 0 <= i < |xs| => xs[i].category)
    else if k == Chips then AllItems(xs)
    else []
  }

  /** A list of categories, each followed by its items as chips. */
  lemma ChipSkillsList(title: string, xs: seq<SkillCategory>, f: (nat, SkillCategory) -> seq<Block>, k: Kind)
    requires forall i: nat, x: SkillCategory :: Select(f(i, x), k) == Select(ChipSkills(x), k)
    ensures Select(ListSection(title, xs, f), k) == TitleOf(xs, title, k) + ChipSkillsTexts(xs, k)
  {
    if k == Lines(Group) {
      forall i: nat, x: SkillCategory ensures Select(f(i, x), k) == [x.category] { ChipSkillsSelect(x, k); }
      ListSingles(title, xs, f, k, (x: SkillCategory) => x.category);
    } else if k == Chips {
      forall i: nat, x: SkillCategory ensures Select(f(i, x), k) == x.items { ChipSkillsSelect(x, k); }
      ListConcat(title, xs, f, k, (s: SkillCategory) => s.items);
    } else {
      forall i: nat, x: SkillCategory ensures Select(f(i, x), k) == [] { ChipSkillsSelect(x, k); }
      ListNone(title, xs, f, k);
    }
  }

  function BulletSkillsTexts(marker: string, xs: seq<SkillCategory>, k: Kind): seq<string> {
    if k == Lines(Group) then seq(|xs|, i requires 0 <= i < |xs| => xs[i].category)
    else if k == Bullets(marker) then AllItems(xs)
    else []
  }

  /** A list of categories, each followed by its items as bullets. */
  lemma BulletSkillsList(title: string, xs: seq<SkillCategory>, f: (nat, SkillCategory) -> seq<Block>, marker: string, k: Kind)
    requires forall i: nat, x: SkillCategory :: Select(f(i, x), k) == Select(BulletSkills(x, marker), k)
    ensures Select(ListSection(title, xs, f), k) == TitleOf(xs, title, k) + BulletSkillsTexts(marker, xs, k)
  {
    if k == Lines(Group) {
      forall i: nat, x: SkillCategory ensures Select(f(i, x), k) == [x.category] { BulletSkillsSelect(x, marker, k); }
      ListSingles(title, xs, f, k, (x: SkillCategory) => x.category);
    } else if k == Bullets(marker) {
      forall i: nat, x: SkillCategory ensures Select(f(i, x), k) == x.items { BulletSkillsSelect(x, marker, k); }
      ListConcat(title, xs, f, k, (s: SkillCategory) => s.items);
    } else {
      forall i: nat, x: SkillCategory ensures Select(f(i, x), k) == [] { BulletSkillsSelect(x, marker, k); }
      ListNone(title, xs, f, k);
    }
  }

  // ---------------------------------------------------------------------
  // Projects.

  function ProjectTexts(techLabel: string, xs: seq<Project>, k: Kind): seq<string> {
    if k == Lines(ProjectTitle) then seq(|xs|, i requires 0 <= i < |xs| => xs[i].name)
    else if k == Lines(ProjectUrl) then Concat(xs, (p: Project) => LinkLines(p.link))
    else if k == Lines(Tech) then Concat(xs, (p: Project) => TechLines(p, techLabel))
    else if k == Lines(ProjectText) then Concat(xs, ProjectTextLines)
    else []
  }

  /** A project list shows every name, and a link, a technologies line and a
      description for exactly the entries that have one. */
  lemma ProjectList(title: string, xs: seq<Project>, f: (nat, Project) -> seq<Block>, techLabel: string, k: Kind)
    requires forall i: nat, x: Project :: Select(f(i, x), k) == Select(ProjectEntry(x, techLabel), k)
    ensures Select(ListSection(title, xs, f), k) == TitleOf(xs, title, k) + ProjectTexts(techLabel, xs, k)
  {
    if k == Lines(ProjectTitle) {
      forall i: nat, x: Project ensures Select(f(i, x), k) == [x.name] { ProjectSelect(x, techLabel, k); }
      ListSingles(title, xs, f, k, (x: Project) => x.name);
    } else if k == Lines(ProjectUrl) {
      forall i: nat, x: Project ensures Select(f(i, x), k) == LinkLines(x.link) { ProjectSelect(x, techLabel, k); }
      ListConcat(title, xs, f, k, (p: Project) => LinkLines(p.link));
    } else if k == Lines(Tech) {
      forall i: nat, x: Project ensures Select(f(i, x), k) == TechLines(x, techLabel) { ProjectSelect(x, techLabel, k); }
      ListConcat(title, xs, f, k, (p: Project) => TechLines(p, techLabel));
    } else if k == Lines(ProjectText) {
      forall i: nat, x: Project ensures Select(f(i, x), k) == ProjectTextLines(x) { ProjectSelect(x, techLabel, k); }
      ListConcat(title, xs, f, k, ProjectTextLines);
    } else {
      forall i: nat, x: Project ensures Select(f(i, x), k) == [] { ProjectSelect(x, techLabel, k); }
      ListNone(title, xs, f, k);
    }
  }

  // ---------------------------------------------------------------------
  // Certifications.

  function StackedCertificationTexts(fmt: string -> string, xs: seq<Certification>, k: Kind): seq<string> {
    if k == Lines(CertTitle) then seq(|xs|, i requires 0 <= i < |xs| => xs[i].name)
    else if k == Lines(IssuedBy) then seq(|xs|, i requires 0 <= i < |xs| => xs[i].issuer)
    else if k == Lines(Issued) then seq(|xs|, i requires 0 <= i < |xs| => FormatDate(fmt, xs[i].date))
    else if k == Lines(CertUrl) then Concat(xs, (c: Certification) => LinkLines(c.link))
    else []
  }

  /** A certification list shows every name, issuer and date, and a link for
      exactly the entries with a truthy one. */
  lemma StackedCertificationList(title: string, xs: seq<Certification>, f: (nat, Certification) -> seq<Block>,
                                 fmt: string -> string, k: Kind)
    requires forall i: nat, x: Certification :: Select(f(i, x), k) == Select(StackedCertification(fmt, x), k)
    ensures Select(ListSection(title, xs, f), k) == TitleOf(xs, title, k) + StackedCertificationTexts(fmt, xs, k)
  {
    if k == Lines(CertTitle) {
      forall i: nat, x: Certification ensures Select(f(i, x), k) == [x.name] { StackedCertificationSelect(fmt, x, k); }
      ListSingles(title, xs, f, k, (x: Certification) => x.name);
    } else if k == Lines(IssuedBy) {
      forall i: nat, x: Certification ensures Select(f(i, x), k) == [x.issuer] { StackedCertificationSelect(fmt, x, k); }
      ListSingles(title, xs, f, k, (x: Certification) => x.issuer);
    } else if k == Lines(Issued) {
      forall i: nat, x: Certification ensures Select(f(i, x), k) == [FormatDate(fmt, x.date)] { StackedCertificationSelect(fmt, x, k); }
      ListSingles(title, xs, f, k, (x: Certification) => FormatDate(fmt, x.date));
    } else if k == Lines(CertUrl) {
      forall i: nat, x: Certification ensures Select(f(i, x), k) == LinkLines(x.link) { StackedCertificationSelect(fmt, x, k); }
      ListConcat(title, xs, f, k, (c: Certification) => LinkLines(c.link));
    } else {
      forall i: nat, x: Certification ensures Select(f(i, x), k) == [] { StackedCertificationSelect(fmt, x, k); }
      ListNone(title, xs, f, k);
    }
  }
}
