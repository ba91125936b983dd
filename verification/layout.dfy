/** The pieces the seven templates share: the header, the summary, a titled
    list section, and the entry layouts several templates repeat with only a
    label text, a bullet glyph or the order of two lines changed; each such
    variation is a parameter here. Every piece comes with a lemma saying,
    for every kind of block, which texts it shows. */
module Layout {
  import opened Strings
  import opened Resume
  import opened Blocks

  // ---------------------------------------------------------------------
  // The header.

  /** The five contact fields, in the order every template lists them. */
  const ContactFields: seq<PersonalField> := [Email, Phone, Location, LinkedIn, Website]

  /** Every personal field but the name and the summary is a contact field. */
  lemma IsContactField(f: PersonalField)
    ensures f in ContactFields <==> f != FullName && f != Summary
  {
    assert ContactFields == [Email, Phone, Location, LinkedIn, Website];
  }

  /** The line a contact field shows under `tag` (`Email: `, an emoji, or
      nothing): present exactly when the field is a contact field and is
      non-empty. */
  function ContactLines(p: PersonalInfo, tag: PersonalField -> string, f: PersonalField): (lines: seq<string>)
    ensures |lines| <= 1
    ensures lines != [] <==> f in ContactFields && GetPersonal(p, f) != ""
  {
    if f in ContactFields && GetPersonal(p, f) != "" then [tag(f) + GetPersonal(p, f)] else []
  }

  /** With no tag, a contact line is the bare value. */
  lemma PlainContactLines(p: PersonalInfo, f: PersonalField)
    ensures ContactLines(p, Plain, f) ==
      if f != FullName && f != Summary && GetPersonal(p, f) != "" then [GetPersonal(p, f)] else []
  {
    IsContactField(f);
    var v := GetPersonal(p, f);
    assert Plain(f) + v == v by { assert Plain(f) == ""; }
  }

  /** `{info.f && <div>{tag(f)}{info.f}</div>}` for each field in turn. */
  function ContactsFrom(p: PersonalInfo, tag: PersonalField -> string, fields: seq<PersonalField>): seq<Block> {
    if fields == [] then [] else
      Opt(GetPersonal(p, fields[0]) != "", Line(Contact(fields[0]), tag(fields[0]) + GetPersonal(p, fields[0])))
      + ContactsFrom(p, tag, fields[1..])
  }

  lemma {:induction false} ContactsSelect(p: PersonalInfo, tag: PersonalField -> string, fields: seq<PersonalField>, k: Kind)
    requires forall i, j :: 0 <= i < j < |fields| ==> fields[i] != fields[j]
    ensures Select(ContactsFrom(p, tag, fields), k) == ContactsShown(p, tag, fields, k)
  {
    if fields != [] {
      assert fields[0] !in fields[1..] by {
        forall i | 0 <= i < |fields[1..]|
          ensures fields[1..][i] != fields[0]
        {
          assert fields[1..][i] == fields[i + 1];
        }
      }
      ContactsSelect(p, tag, fields[1..], k);
      ContactsStep(p, tag, fields[0], fields[1..], k);
      assert [fields[0]] + fields[1..] == fields;
    }
  }

  /** What the contact lines for `fields` show of kind `k`. */
  function ContactsShown(p: PersonalInfo, tag: PersonalField -> string, fields: seq<PersonalField>, k: Kind): seq<string> {
    if k.Lines? && k.slot.Contact? && k.slot.field in fields && GetPersonal(p, k.slot.field) != ""
    then [tag(k.slot.field) + GetPersonal(p, k.slot.field)] else []
  }

  /** One field in front of the others, which it does not repeat. */
  lemma ContactsStep(p: PersonalInfo, tag: PersonalField -> string, f: PersonalField, rest: seq<PersonalField>, k: Kind)
    requires f !in rest
    requires Select(ContactsFrom(p, tag, rest), k) == ContactsShown(p, tag, rest, k)
    ensures Select(ContactsFrom(p, tag, [f] + rest), k) == ContactsShown(p, tag, [f] + rest, k)
  {
    var fields := [f] + rest;
    assert fields[0] == f && fields[1..] == rest;
    var line := Line(Contact(f), tag(f) + GetPersonal(p, f));
    var head := Opt(GetPersonal(p, f) != "", line);
    assert ContactsFrom(p, tag, fields) == head + ContactsFrom(p, tag, rest);
    OptSelect(GetPersonal(p, f) != "", line, k);
    SelectAppend(head, ContactsFrom(p, tag, rest), k);
    if k.Lines? && k.slot.Contact? {
      var g := k.slot.field;
      assert g in fields <==> g == f || g in rest;
    }
  }

  /** The tag of a template that prints the bare value. */
  function Plain(f: PersonalField): string {
    ""
  }

  /** The tag of a template that names each field: `Email: `, `Phone: `, … */
  function Labelled(f: PersonalField): string {
    match f
    case Email => "Email: "
    case Phone => "Phone: "
    case Location => "Location: "
    case LinkedIn => "LinkedIn: "
    case Website => "Website: "
    case _ => ""
  }

  /** `<h1>{fullName}</h1>` followed by the contact lines. */
  function Header(p: PersonalInfo, tag: PersonalField -> string): seq<Block> {
    [Name(p.fullName)] + ContactsFrom(p, tag, ContactFields)
  }

  /** The header shows the full name, even when empty, and exactly the
      non-empty contact fields, each under its tag. */
  lemma HeaderSelect(p: PersonalInfo, tag: PersonalField -> string, k: Kind)
    ensures Select(Header(p, tag), k) ==
      if k == Names then [p.fullName]
      else if k.Lines? && k.slot.Contact? then ContactLines(p, tag, k.slot.field)
      else []
  {
    var contacts := ContactsFrom(p, tag, ContactFields);
    ContactFieldsDistinct();
    ContactsSelect(p, tag, ContactFields, k);
    SelectOne(Name(p.fullName), k);
    SelectAppend([Name(p.fullName)], contacts, k);
    if k == Names {
      assert Select(contacts, k) == [];
      assert Select([Name(p.fullName)], k) + [] == [p.fullName];
    } else if k.Lines? && k.slot.Contact? {
      assert Select([Name(p.fullName)], k) == [];
      assert [] + Select(contacts, k) == Select(contacts, k);
    } else {
      assert Select(contacts, k) == [] && Select([Name(p.fullName)], k) == [];
    }
  }

  /** The five contact fields are pairwise different. */
  lemma ContactFieldsDistinct()
    ensures forall i, j :: 0 <= i < j < |ContactFields| ==> ContactFields[i] != ContactFields[j]
  {
    assert ContactFields == [Email, Phone, Location, LinkedIn, Website];
  }

  // ---------------------------------------------------------------------
  // Sections.

  /** `summary && <section><h2>{title}</h2><p>{summary}</p></section>`. */
  function SummarySection(title: string, summary: string): seq<Block> {
    Section(summary != "", title, [Line(SummaryText, summary)])
  }

  /** The summary section appears exactly when the summary is non-empty. */
  lemma SummarySelect(title: string, summary: string, k: Kind)
    ensures Select(SummarySection(title, summary), k) ==
      if summary != "" && k == Headings then [title]
      else if summary != "" && k == Lines(SummaryText) then [summary]
      else []
  {
    LineSelect(SummaryText, summary, k);
    SectionSelect(summary != "", title, [Line(SummaryText, summary)], k);
  }

  /** `xs.length > 0 && <section><h2>{title}</h2>{xs.map(f)}</section>`. */
  function ListSection<T>(title: string, xs: seq<T>, f: (nat, T) -> seq<Block>): seq<Block> {
    Section(|xs| > 0, title, Each(xs, f))
  }

  /** A list section shows its title exactly when the list is non-empty, and
      under any other kind what its entries show, entry after entry. */
  lemma ListSelect<T>(title: string, xs: seq<T>, f: (nat, T) -> seq<Block>, k: Kind, g: T -> seq<string>)
    requires forall i: nat, x: T :: Select(f(i, x), k) == g(x)
    ensures Select(ListSection(title, xs, f), k) ==
      (if |xs| > 0 && k == Headings then [title] else []) + Concat(xs, g)
  {
    SectionSelect(|xs| > 0, title, Each(xs, f), k);
    EachSelect(xs, f, 0, k, g);
  }

  /** A list whose entries show nothing of kind `k` shows nothing of it,
      the title aside. */
  lemma ListSelectNone<T>(title: string, xs: seq<T>, f: (nat, T) -> seq<Block>, k: Kind)
    requires k != Headings
    requires forall i: nat, x: T :: Select(f(i, x), k) == []
    ensures Select(ListSection(title, xs, f), k) == []
  {
    var none: T -> seq<string> := (x: T) => [];
    ListSelect(title, xs, f, k, none);
    ConcatEmpty(xs, none);
  }

  /** The title of a list section, exactly when the list is non-empty. */
  function Titled<T>(xs: seq<T>, title: string): (r: seq<string>)
    ensures r == [] <==> |xs| == 0
  {
    if |xs| > 0 then [title] else []
  }

  // ---------------------------------------------------------------------
  // Experience.

  function ExperiencePeriod(fmt: string -> string, e: Experience): string {
    DateRange(fmt, e.startDate, e.endDate, e.current)
  }

  /** The lines of an experience's description, as shown under its bullets. */
  function ExperienceLines(e: Experience): seq<string> {
    DescriptionLines(e.description)
  }

  /** Position and company on lines of their own, then the period. */
  function RoleLines(fmt: string -> string, e: Experience): seq<Block> {
    [Line(Role, e.position)] + [Line(Employer, e.company)] + [Line(Period, ExperiencePeriod(fmt, e))]
  }

  lemma RoleLinesSelect(fmt: string -> string, e: Experience, k: Kind)
    ensures Select(RoleLines(fmt, e), k) ==
      if k == Lines(Role) then [e.position]
      else if k == Lines(Employer) then [e.company]
      else if k == Lines(Period) then [ExperiencePeriod(fmt, e)]
      else []
  {
    LineSelect(Role, e.position, k);
    LineSelect(Employer, e.company, k);
    LineSelect(Period, ExperiencePeriod(fmt, e), k);
    SelectParts3([Line(Role, e.position)], [Line(Employer, e.company)], [Line(Period, ExperiencePeriod(fmt, e))], k);
  }

  /** Position, company and period, then one bullet per description line. */
  function ExperienceEntry(fmt: string -> string, e: Experience, marker: string): seq<Block> {
    RoleLines(fmt, e) + DescriptionBullets(marker, e.description)
  }

  lemma ExperienceSelect(fmt: string -> string, e: Experience, marker: string, k: Kind)
    ensures Select(ExperienceEntry(fmt, e, marker), k) ==
      if k == Lines(Role) then [e.position]
      else if k == Lines(Employer) then [e.company]
      else if k == Lines(Period) then [ExperiencePeriod(fmt, e)]
      else if k == Bullets(marker) then ExperienceLines(e)
      else []
  {
    RoleLinesSelect(fmt, e, k);
    SelectAppend(RoleLines(fmt, e), DescriptionBullets(marker, e.description), k);
  }

  // ---------------------------------------------------------------------
  // Education.

  /** `{formatDate(start)} - {formatDate(end)}`: education has no "current" flag. */
  function EducationPeriod(fmt: string -> string, e: Education): string {
    DateRange(fmt, e.startDate, e.endDate, false)
  }

  /** The grade line `GPA: …`, present exactly when `gpa` is truthy. */
  function GradeLines(e: Education): (lines: seq<string>)
    ensures |lines| <= 1
    ensures lines != [] <==> Truthy(e.gpa)
  {
    if Truthy(e.gpa) then ["GPA: " + e.gpa.value] else []
  }

  function GradeLine(e: Education): seq<Block> {
    Opt(Truthy(e.gpa), Line(Grade, if e.gpa.Some? then "GPA: " + e.gpa.value else ""))
  }

  lemma GradeSelect(e: Education, k: Kind)
    ensures Select(GradeLine(e), k) == if k == Lines(Grade) then GradeLines(e) else []
  {
    OptLineSelect(Truthy(e.gpa), Grade, if e.gpa.Some? then "GPA: " + e.gpa.value else "", k);
  }

  /** The grade and the period, in the order the template puts them. */
  function GradeAndPeriod(fmt: string -> string, e: Education, gradeFirst: bool): seq<Block> {
    if gradeFirst then GradeLine(e) + [Line(Period, EducationPeriod(fmt, e))]
    else [Line(Period, EducationPeriod(fmt, e))] + GradeLine(e)
  }

  lemma GradeAndPeriodSelect(fmt: string -> string, e: Education, gradeFirst: bool, k: Kind)
    ensures Select(GradeAndPeriod(fmt, e, gradeFirst), k) ==
      if k == Lines(Grade) then GradeLines(e)
      else if k == Lines(Period) then [EducationPeriod(fmt, e)]
      else []
  {
    LineSelect(Period, EducationPeriod(fmt, e), k);
    GradeSelect(e, k);
    SelectAppend(GradeLine(e), [Line(Period, EducationPeriod(fmt, e))], k);
    SelectAppend([Line(Period, EducationPeriod(fmt, e))], GradeLine(e), k);
  }

  /** Degree, field and institution, each on a line of its own. */
  function DegreeLines(e: Education): seq<Block> {
    [Line(DegreeTitle, e.degree)] + [Line(FieldOfStudy, e.field)] + [Line(School, e.institution)]
  }

  lemma DegreeLinesSelect(e: Education, k: Kind)
    ensures Select(DegreeLines(e), k) ==
      if k == Lines(DegreeTitle) then [e.degree]
      else if k == Lines(FieldOfStudy) then [e.field]
      else if k == Lines(School) then [e.institution]
      else []
  {
    LineSelect(DegreeTitle, e.degree, k);
    LineSelect(FieldOfStudy, e.field, k);
    LineSelect(School, e.institution, k);
    SelectParts3([Line(DegreeTitle, e.degree)], [Line(FieldOfStudy, e.field)], [Line(School, e.institution)], k);
  }

  /** Degree, field and institution on lines of their own, then the grade and
      the period. */
  function StackedEducation(fmt: string -> string, e: Education, gradeFirst: bool): seq<Block> {
    DegreeLines(e) + GradeAndPeriod(fmt, e, gradeFirst)
  }

  lemma StackedEducationSelect(fmt: string -> string, e: Education, gradeFirst: bool, k: Kind)
    ensures Select(StackedEducation(fmt, e, gradeFirst), k) ==
      if k == Lines(DegreeTitle) then [e.degree]
      else if k == Lines(FieldOfStudy) then [e.field]
      else if k == Lines(School) then [e.institution]
      else if k == Lines(Grade) then GradeLines(e)
      else if k == Lines(Period) then [EducationPeriod(fmt, e)]
      else []
  {
    DegreeLinesSelect(e, k);
    GradeAndPeriodSelect(fmt, e, gradeFirst, k);
    SelectAppend(DegreeLines(e), GradeAndPeriod(fmt, e, gradeFirst), k);
    var top := Select(DegreeLines(e), k);
    var bottom := Select(GradeAndPeriod(fmt, e, gradeFirst), k);
    if k == Lines(DegreeTitle) || k == Lines(FieldOfStudy) || k == Lines(School) {
      assert bottom == [];
      assert top + bottom == top;
    } else if k == Lines(Grade) || k == Lines(Period) {
      assert top == [];
      assert top + bottom == bottom;
    } else {
      assert top == [] && bottom == [];
    }
  }

  /** `{degree} in {field}`, the institution, the grade, then the period. */
  function InFieldEducation(fmt: string -> string, e: Education): seq<Block> {
    [Line(DegreeInField, e.degree + " in " + e.field)] + [Line(School, e.institution)]
      + GradeLine(e) + [Line(Period, EducationPeriod(fmt, e))]
  }

  lemma InFieldEducationSelect(fmt: string -> string, e: Education, k: Kind)
    ensures Select(InFieldEducation(fmt, e), k) ==
      if k == Lines(DegreeInField) then [e.degree + " in " + e.field]
      else if k == Lines(School) then [e.institution]
      else if k == Lines(Grade) then GradeLines(e)
      else if k == Lines(Period) then [EducationPeriod(fmt, e)]
      else []
  {
    LineSelect(DegreeInField, e.degree + " in " + e.field, k);
    LineSelect(School, e.institution, k);
    LineSelect(Period, EducationPeriod(fmt, e), k);
    GradeSelect(e, k);
    SelectParts4([Line(DegreeInField, e.degree + " in " + e.field)], [Line(School, e.institution)],
      GradeLine(e), [Line(Period, EducationPeriod(fmt, e))], k);
  }

  // ---------------------------------------------------------------------
  // Skills.

  /** `{category}: {items.filter(Boolean).join(', ')}`: empty items are dropped. */
  function SkillLine(s: SkillCategory): string {
    s.category + ": " + Join(NonEmpty(s.items), ", ")
  }

  /** An empty item adds nothing to the skill line. */
  lemma SkillLineSkipsEmpty(s: SkillCategory, before: seq<string>, after: seq<string>)
    requires s.items == before + [""] + after
    ensures SkillLine(s) == SkillLine(s.(items := before + after))
  {
    NonEmptyAppend(before, [""]);
    NonEmptyAppend(before + [""], after);
    NonEmptyAppend(before, after);
    assert NonEmpty([""]) == [] by { assert [""][1..] == []; }
    assert NonEmpty(before + [""]) == NonEmpty(before);
  }

  function SkillLineEntry(s: SkillCategory): seq<Block> {
    [Line(SkillList, SkillLine(s))]
  }

  lemma SkillLineSelect(s: SkillCategory, k: Kind)
    ensures Select(SkillLineEntry(s), k) == if k == Lines(SkillList) then [SkillLine(s)] else []
  {
    LineSelect(SkillList, SkillLine(s), k);
  }

  /** The category as a heading of its own, then one chip per item, empty
      items included. */
  function ChipSkills(s: SkillCategory): seq<Block> {
    [Line(Group, s.category)] + ChipsOf(s.items)
  }

  lemma ChipSkillsSelect(s: SkillCategory, k: Kind)
    ensures Select(ChipSkills(s), k) ==
      if k == Lines(Group) then [s.category]
      else if k == Chips then s.items
      else []
  {
    LineSelect(Group, s.category, k);
    SelectAppend([Line(Group, s.category)], ChipsOf(s.items), k);
  }

  /** The category as a heading of its own, then one bullet per item, empty
      items included. */
  function BulletSkills(s: SkillCategory, marker: string): seq<Block> {
    [Line(Group, s.category)] + BulletsOf(marker, s.items)
  }

  lemma BulletSkillsSelect(s: SkillCategory, marker: string, k: Kind)
    ensures Select(BulletSkills(s, marker), k) ==
      if k == Lines(Group) then [s.category]
      else if k == Bullets(marker) then s.items
      else []
  {
    LineSelect(Group, s.category, k);
    SelectAppend([Line(Group, s.category)], BulletsOf(marker, s.items), k);
  }

  // ---------------------------------------------------------------------
  // Projects.

  /** The link line of a project or certification, present exactly when
      `link` is truthy. */
  function LinkLines(link: Option<string>): (lines: seq<string>)
    ensures |lines| <= 1
    ensures lines != [] <==> Truthy(link)
  {
    if Truthy(link) then [link.value] else []
  }

  function LinkLine(slot: Slot, link: Option<string>): seq<Block> {
    Opt(Truthy(link), Line(slot, if link.Some? then link.value else ""))
  }

  lemma LinkSelect(slot: Slot, link: Option<string>, k: Kind)
    ensures Select(LinkLine(slot, link), k) == if k == Lines(slot) then LinkLines(link) else []
  {
    OptLineSelect(Truthy(link), slot, if link.Some? then link.value else "", k);
  }

  /** `{techLabel}{technologies}`, present exactly when there are technologies. */
  function TechLines(p: Project, techLabel: string): (lines: seq<string>)
    ensures lines != [] <==> p.technologies != ""
  {
    if p.technologies != "" then [techLabel + p.technologies] else []
  }

  /** The description, present exactly when non-empty. */
  function ProjectTextLines(p: Project): (lines: seq<string>)
    ensures lines != [] <==> p.description != ""
  {
    if p.description != "" then [p.description] else []
  }

  /** `{techLabel}{technologies}` if any, then the description if any. */
  function ProjectDetails(p: Project, techLabel: string): seq<Block> {
    Opt(p.technologies != "", Line(Tech, techLabel + p.technologies))
      + Opt(p.description != "", Line(ProjectText, p.description))
  }

  lemma ProjectDetailsSelect(p: Project, techLabel: string, k: Kind)
    ensures Select(ProjectDetails(p, techLabel), k) ==
      if k == Lines(Tech) then TechLines(p, techLabel)
      else if k == Lines(ProjectText) then ProjectTextLines(p)
      else []
  {
    OptLineSelect(p.technologies != "", Tech, techLabel + p.technologies, k);
    OptLineSelect(p.description != "", ProjectText, p.description, k);
    SelectAppend(Opt(p.technologies != "", Line(Tech, techLabel + p.technologies)),
      Opt(p.description != "", Line(ProjectText, p.description)), k);
  }

  /** The name, the link if any, then the details. */
  function ProjectEntry(p: Project, techLabel: string): seq<Block> {
    [Line(ProjectTitle, p.name)] + LinkLine(ProjectUrl, p.link) + ProjectDetails(p, techLabel)
  }

  lemma ProjectSelect(p: Project, techLabel: string, k: Kind)
    ensures Select(ProjectEntry(p, techLabel), k) ==
      if k == Lines(ProjectTitle) then [p.name]
      else if k == Lines(ProjectUrl) then LinkLines(p.link)
      else if k == Lines(Tech) then TechLines(p, techLabel)
      else if k == Lines(ProjectText) then ProjectTextLines(p)
      else []
  {
    LineSelect(ProjectTitle, p.name, k);
    LinkSelect(ProjectUrl, p.link, k);
    ProjectDetailsSelect(p, techLabel, k);
    SelectParts3([Line(ProjectTitle, p.name)], LinkLine(ProjectUrl, p.link), ProjectDetails(p, techLabel), k);
    var title, link, details := Select([Line(ProjectTitle, p.name)], k), Select(LinkLine(ProjectUrl, p.link), k),
      Select(ProjectDetails(p, techLabel), k);
    if k == Lines(ProjectTitle) {
      assert link == [] && details == [];
      assert title + link + details == title;
    } else if k == Lines(ProjectUrl) {
      assert title == [] && details == [];
      assert title + link + details == link;
    } else {
      assert title == [] && link == [];
      assert title + link + details == details;
    }
  }

  // ---------------------------------------------------------------------
  // Certifications.

  /** Name, issuer and date on lines of their own, then the link if any. */
  function StackedCertification(fmt: string -> string, c: Certification): seq<Block> {
    IssueLines(fmt, c) + LinkLine(CertUrl, c.link)
  }

  /** Name, issuer and date, each on a line of its own. */
  function IssueLines(fmt: string -> string, c: Certification): seq<Block> {
    [Line(CertTitle, c.name)] + [Line(IssuedBy, c.issuer)] + [Line(Issued, FormatDate(fmt, c.date))]
  }

  lemma IssueLinesSelect(fmt: string -> string, c: Certification, k: Kind)
    ensures Select(IssueLines(fmt, c), k) ==
      if k == Lines(CertTitle) then [c.name]
      else if k == Lines(IssuedBy) then [c.issuer]
      else if k == Lines(Issued) then [FormatDate(fmt, c.date)]
      else []
  {
    LineSelect(CertTitle, c.name, k);
    LineSelect(IssuedBy, c.issuer, k);
    LineSelect(Issued, FormatDate(fmt, c.date), k);
    SelectParts3([Line(CertTitle, c.name)], [Line(IssuedBy, c.issuer)], [Line(Issued, FormatDate(fmt, c.date))], k);
  }

  lemma StackedCertificationSelect(fmt: string -> string, c: Certification, k: Kind)
    ensures Select(StackedCertification(fmt, c), k) ==
      if k == Lines(CertTitle) then [c.name]
      else if k == Lines(IssuedBy) then [c.issuer]
      else if k == Lines(Issued) then [FormatDate(fmt, c.date)]
      else if k == Lines(CertUrl) then LinkLines(c.link)
      else []
  {
    IssueLinesSelect(fmt, c, k);
    LinkSelect(CertUrl, c.link, k);
    SelectAppend(IssueLines(fmt, c), LinkLine(CertUrl, c.link), k);
    var top := Select(IssueLines(fmt, c), k);
    var link := Select(LinkLine(CertUrl, c.link), k);
    if k == Lines(CertTitle) || k == Lines(IssuedBy) || k == Lines(Issued) {
      assert link == [];
      assert top + link == top;
    } else if k == Lines(CertUrl) {
      assert top == [];
      assert top + link == link;
    } else {
      assert top == [] && link == [];
    }
  }
}
