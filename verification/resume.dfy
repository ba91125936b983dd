/** The resume record: one personal-information singleton and five lists of
    entries that carry ids, as the `ResumeData` interface declares it, with
    field-level accessors for the editor's `{ ...entry, [field]: value }`. */
module Resume {

  datatype Option<T> = None | Some(value: T)

  /** JavaScript truthiness of an optional string: present and non-empty. */
  predicate Truthy(o: Option<string>) {
    o.Some? && o.value != ""
  }

  datatype PersonalInfo = PersonalInfo(
    fullName: string,
    email: string,
    phone: string,
    location: string,
    linkedIn: string,
    website: string,
    summary: string)

  datatype Experience = Experience(
    id: string,
    company: string,
    position: string,
    startDate: string,
    endDate: string,
    current: bool,
    description: string)

  /** `gpa` is declared optional. */
  datatype Education = Education(
    id: string,
    institution: string,
    degree: string,
    field: string,
    startDate: string,
    endDate: string,
    gpa: Option<string>)

  datatype SkillCategory = SkillCategory(
    id: string,
    category: string,
    items: seq<string>)

  /** `link` is declared optional. */
  datatype Project = Project(
    id: string,
    name: string,
    description: string,
    technologies: string,
    link: Option<string>)

  /** `link` is declared optional. */
  datatype Certification = Certification(
    id: string,
    name: string,
    issuer: string,
    date: string,
    link: Option<string>)

  datatype ResumeData = ResumeData(
    personalInfo: PersonalInfo,
    experience: seq<Experience>,
    education: seq<Education>,
    skills: seq<SkillCategory>,
    projects: seq<Project>,
    certifications: seq<Certification>)

  /** The record the session starts with. */
  function InitialData(): (d: ResumeData)
    ensures forall f :: GetPersonal(d.personalInfo, f) == ""
    ensures d.experience == [] && d.education == [] && d.skills == []
    ensures d.projects == [] && d.certifications == []
  {
    ResumeData(PersonalInfo("", "", "", "", "", "", ""), [], [], [], [], [])
  }

  // ---------------------------------------------------------------------
  // Personal information: seven text fields addressed by name.

  datatype PersonalField = FullName | Email | Phone | Location | LinkedIn | Website | Summary

  function GetPersonal(p: PersonalInfo, f: PersonalField): string {
    match f
    case FullName => p.fullName
    case Email => p.email
    case Phone => p.phone
    case Location => p.location
    case LinkedIn => p.linkedIn
    case Website => p.website
    case Summary => p.summary
  }

  /** `{ ...personalInfo, [f]: v }`: field `f` reads back `v`, every other field is kept. */
  function SetPersonal(p: PersonalInfo, f: PersonalField, v: string): (r: PersonalInfo)
    ensures GetPersonal(r, f) == v
    ensures forall g :: g != f ==> GetPersonal(r, g) == GetPersonal(p, g)
  {
    match f
    case FullName => p.(fullName := v)
    case Email => p.(email := v)
    case Phone => p.(phone := v)
    case Location => p.(location := v)
    case LinkedIn => p.(linkedIn := v)
    case Website => p.(website := v)
    case Summary => p.(summary := v)
  }

  /** Two personal records that agree on every field are equal. */
  lemma PersonalExtensional(p: PersonalInfo, q: PersonalInfo)
    requires forall f :: GetPersonal(p, f) == GetPersonal(q, f)
    ensures p == q
  {
    assert GetPersonal(p, FullName) == GetPersonal(q, FullName);
    assert GetPersonal(p, Email) == GetPersonal(q, Email);
    assert GetPersonal(p, Phone) == GetPersonal(q, Phone);
    assert GetPersonal(p, Location) == GetPersonal(q, Location);
    assert GetPersonal(p, LinkedIn) == GetPersonal(q, LinkedIn);
    assert GetPersonal(p, Website) == GetPersonal(q, Website);
    assert GetPersonal(p, Summary) == GetPersonal(q, Summary);
  }

  // ---------------------------------------------------------------------
  // Entry fields. The editor writes a string, a boolean (`current`) or a
  // list of strings (`items`); an optional field that was never set reads
  // as Missing.

  datatype Value = Text(s: string) | Flag(b: bool) | List(items: seq<string>) | Missing

  datatype ExperienceField = Company | Position | ExpStart | ExpEnd | Current | Description

  predicate ExperienceFits(f: ExperienceField, v: Value) {
    if f == Current then v.Flag? else v.Text?
  }

  function GetExperience(e: Experience, f: ExperienceField): Value {
    match f
    case Company => Text(e.company)
    case Position => Text(e.position)
    case ExpStart => Text(e.startDate)
    case ExpEnd => Text(e.endDate)
    case Current => Flag(e.current)
    case Description => Text(e.description)
  }

  function PutExperience(e: Experience, f: ExperienceField, v: Value): (r: Experience)
    requires ExperienceFits(f, v)
    ensures r.id == e.id
    ensures GetExperience(r, f) == v
    ensures forall g :: g != f ==> GetExperience(r, g) == GetExperience(e, g)
  {
    match f
    case Company => e.(company := v.s)
    case Position => e.(position := v.s)
    case ExpStart => e.(startDate := v.s)
    case ExpEnd => e.(endDate := v.s)
    case Current => e.(current := v.b)
    case Description => e.(description := v.s)
  }

  lemma ExperienceExtensional(a: Experience, b: Experience)
    requires a.id == b.id
    requires forall f :: GetExperience(a, f) == GetExperience(b, f)
    ensures a == b
  {
    assert GetExperience(a, Company) == GetExperience(b, Company);
    assert GetExperience(a, Position) == GetExperience(b, Position);
    assert GetExperience(a, ExpStart) == GetExperience(b, ExpStart);
    assert GetExperience(a, ExpEnd) == GetExperience(b, ExpEnd);
    assert GetExperience(a, Current) == GetExperience(b, Current);
    assert GetExperience(a, Description) == GetExperience(b, Description);
  }

  datatype EducationField = Institution | Degree | Study | EduStart | EduEnd | Gpa

  predicate EducationFits(f: EducationField, v: Value) {
    v.Text?
  }

  function GetEducation(e: Education, f: EducationField): Value {
    match f
    case Institution => Text(e.institution)
    case Degree => Text(e.degree)
    case Study => Text(e.field)
    case EduStart => Text(e.startDate)
    case EduEnd => Text(e.endDate)
    case Gpa => if e.gpa.Some? then Text(e.gpa.value) else Missing
  }

  function PutEducation(e: Education, f: EducationField, v: Value): (r: Education)
    requires EducationFits(f, v)
    ensures r.id == e.id
    ensures GetEducation(r, f) == v
    ensures forall g :: g != f ==> GetEducation(r, g) == GetEducation(e, g)
  {
    match f
    case Institution => e.(institution := v.s)
    case Degree => e.(degree := v.s)
    case Study => e.(field := v.s)
    case EduStart => e.(startDate := v.s)
    case EduEnd => e.(endDate := v.s)
    case Gpa => e.(gpa := Some(v.s))
  }

  lemma EducationExtensional(a: Education, b: Education)
    requires a.id == b.id
    requires forall f :: GetEducation(a, f) == GetEducation(b, f)
    ensures a == b
  {
    assert GetEducation(a, Institution) == GetEducation(b, Institution);
    assert GetEducation(a, Degree) == GetEducation(b, Degree);
    assert GetEducation(a, Study) == GetEducation(b, Study);
    assert GetEducation(a, EduStart) == GetEducation(b, EduStart);
    assert GetEducation(a, EduEnd) == GetEducation(b, EduEnd);
    assert GetEducation(a, Gpa) == GetEducation(b, Gpa);
  }

  datatype SkillField = Category | Items

  predicate SkillFits(f: SkillField, v: Value) {
    if f == Items then v.List? else v.Text?
  }

  function GetSkill(s: SkillCategory, f: SkillField): Value {
    match f
    case Category => Text(s.category)
    case Items => List(s.items)
  }

  function PutSkill(s: SkillCategory, f: SkillField, v: Value): (r: SkillCategory)
    requires SkillFits(f, v)
    ensures r.id == s.id
    ensures GetSkill(r, f) == v
    ensures forall g :: g != f ==> GetSkill(r, g) == GetSkill(s, g)
  {
    match f
    case Category => s.(category := v.s)
    case Items => s.(items := v.items)
  }

  lemma SkillExtensional(a: SkillCategory, b: SkillCategory)
    requires a.id == b.id
    requires forall f :: GetSkill(a, f) == GetSkill(b, f)
    ensures a == b
  {
    assert GetSkill(a, Category) == GetSkill(b, Category);
    assert GetSkill(a, Items) == GetSkill(b, Items);
  }

  datatype ProjectField = ProjectName | ProjectDescription | Technologies | ProjectLink

  predicate ProjectFits(f: ProjectField, v: Value) {
    v.Text?
  }

  function GetProject(p: Project, f: ProjectField): Value {
    match f
    case ProjectName => Text(p.name)
    case ProjectDescription => Text(p.description)
    case Technologies => Text(p.technologies)
    case ProjectLink => if p.link.Some? then Text(p.link.value) else Missing
  }

  function PutProject(p: Project, f: ProjectField, v: Value): (r: Project)
    requires ProjectFits(f, v)
    ensures r.id == p.id
    ensures GetProject(r, f) == v
    ensures forall g :: g != f ==> GetProject(r, g) == GetProject(p, g)
  {
    match f
    case ProjectName => p.(name := v.s)
    case ProjectDescription => p.(description := v.s)
    case Technologies => p.(technologies := v.s)
    case ProjectLink => p.(link := Some(v.s))
  }

  lemma ProjectExtensional(a: Project, b: Project)
    requires a.id == b.id
    requires forall f :: GetProject(a, f) == GetProject(b, f)
    ensures a == b
  {
    assert GetProject(a, ProjectName) == GetProject(b, ProjectName);
    assert GetProject(a, ProjectDescription) == GetProject(b, ProjectDescription);
    assert GetProject(a, Technologies) == GetProject(b, Technologies);
    assert GetProject(a, ProjectLink) == GetProject(b, ProjectLink);
  }

  datatype CertificationField = CertName | Issuer | CertDate | CertLink

  predicate CertificationFits(f: CertificationField, v: Value) {
    v.Text?
  }

  function GetCertification(c: Certification, f: CertificationField): Value {
    match f
    case CertName => Text(c.name)
    case Issuer => Text(c.issuer)
    case CertDate => Text(c.date)
    case CertLink => if c.link.Some? then Text(c.link.value) else Missing
  }

  function PutCertification(c: Certification, f: CertificationField, v: Value): (r: Certification)
    requires CertificationFits(f, v)
    ensures r.id == c.id
    ensures GetCertification(r, f) == v
    ensures forall g :: g != f ==> GetCertification(r, g) == GetCertification(c, g)
  {
    match f
    case CertName => c.(name := v.s)
    case Issuer => c.(issuer := v.s)
    case CertDate => c.(date := v.s)
    case CertLink => c.(link := Some(v.s))
  }

  lemma CertificationExtensional(a: Certification, b: Certification)
    requires a.id == b.id
    requires forall f :: GetCertification(a, f) == GetCertification(b, f)
    ensures a == b
  {
    assert GetCertification(a, CertName) == GetCertification(b, CertName);
    assert GetCertification(a, Issuer) == GetCertification(b, Issuer);
    assert GetCertification(a, CertDate) == GetCertification(b, CertDate);
    assert GetCertification(a, CertLink) == GetCertification(b, CertLink);
  }
}
