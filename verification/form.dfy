/** The form as a whole: every event the editor reacts to, the record it
    produces, and the invariants that every sequence of events keeps. */
module Form {
  import opened Strings
  import opened Resume
  import opened Entries
  import opened Editor

  datatype Section = ExperienceSection | EducationSection | SkillsSection | ProjectsSection | CertificationsSection

  /** One user event. `Add` carries the id `Date.now().toString()` produced. */
  datatype Action =
    | SetPersonalField(field: PersonalField, text: string)
    | EnterPhone(raw: string)
    | Add(section: Section, id: string)
    | Remove(section: Section, id: string)
    | EditExperience(id: string, ef: ExperienceField, v: Value)
    | EditEducation(id: string, df: EducationField, v: Value)
    | EditSkillCategory(id: string, sf: SkillField, v: Value)
    | EditProject(id: string, pf: ProjectField, v: Value)
    | EditCertification(id: string, cf: CertificationField, v: Value)
    | EnterSkillItems(id: string, text: string)

  /** The value an edit carries has the type its field is declared with. */
  predicate WellTyped(a: Action) {
    match a
    case EditExperience(_, f, v) => ExperienceFits(f, v)
    case EditEducation(_, f, v) => EducationFits(f, v)
    case EditSkillCategory(_, f, v) => SkillFits(f, v)
    case EditProject(_, f, v) => ProjectFits(f, v)
    case EditCertification(_, f, v) => CertificationFits(f, v)
    case _ => true
  }

  function SectionIds(d: ResumeData, s: Section): seq<string> {
    match s
    case ExperienceSection => Ids(d.experience, ExperienceId)
    case EducationSection => Ids(d.education, EducationId)
    case SkillsSection => Ids(d.skills, SkillId)
    case ProjectsSection => Ids(d.projects, ProjectId)
    case CertificationsSection => Ids(d.certifications, CertificationId)
  }

  /** Within every section, no two entries share an id. */
  predicate DistinctAll(d: ResumeData) {
    && DistinctIds(d.experience, ExperienceId)
    && DistinctIds(d.education, EducationId)
    && DistinctIds(d.skills, SkillId)
    && DistinctIds(d.projects, ProjectId)
    && DistinctIds(d.certifications, CertificationId)
  }

  /** The optional fields are always present once the editor has created an
      entry: `gpa` and both `link`s start as `""` and are only ever overwritten. */
  predicate OptionalsSet(d: ResumeData) {
    && (forall i :: 0 <= i < |d.education| ==> d.education[i].gpa.Some?)
    && (forall i :: 0 <= i < |d.projects| ==> d.projects[i].link.Some?)
    && (forall i :: 0 <= i < |d.certifications| ==> d.certifications[i].link.Some?)
  }

  /** An add whose id is not yet used in its section. */
  predicate FreshAdd(d: ResumeData, a: Action) {
    a.Add? ==> a.id !in SectionIds(d, a.section)
  }

  /** The record after one event. */
  function Apply(d: ResumeData, a: Action): (r: ResumeData)
    requires WellTyped(a)
    ensures !a.SetPersonalField? && !a.EnterPhone? ==> r.personalInfo == d.personalInfo
  {
    match a
    case SetPersonalField(f, text) => UpdatePersonalInfo(d, f, text)
    case EnterPhone(raw) => OnPhoneInput(d, raw)
    case Add(s, id) => ApplyAdd(d, s, id)
    case Remove(s, id) => ApplyRemove(d, s, id)
    case EditExperience(id, f, v) => UpdateExperience(d, id, f, v)
    case EditEducation(id, f, v) => UpdateEducation(d, id, f, v)
    case EditSkillCategory(id, f, v) => UpdateSkillCategory(d, id, f, v)
    case EditProject(id, f, v) => UpdateProject(d, id, f, v)
    case EditCertification(id, f, v) => UpdateCertification(d, id, f, v)
    case EnterSkillItems(id, text) => OnSkillsInput(d, id, text)
  }

  /** Every section but `s`, and the personal information, are as in `d`. */
  predicate SameElsewhere(d: ResumeData, r: ResumeData, s: Section) {
    && r.personalInfo == d.personalInfo
    && (s != ExperienceSection ==> r.experience == d.experience)
    && (s != EducationSection ==> r.education == d.education)
    && (s != SkillsSection ==> r.skills == d.skills)
    && (s != ProjectsSection ==> r.projects == d.projects)
    && (s != CertificationsSection ==> r.certifications == d.certifications)
  }

  /** The add button of a section: the new id is appended to that section's ids. */
  function ApplyAdd(d: ResumeData, s: Section, id: string): (r: ResumeData)
    ensures SectionIds(r, s) == SectionIds(d, s) + [id]
    ensures SameElsewhere(d, r, s)
  {
    match s
    case ExperienceSection => AddExperience(d, id)
    case EducationSection => AddEducation(d, id)
    case SkillsSection => AddSkillCategory(d, id)
    case ProjectsSection => AddProject(d, id)
    case CertificationsSection => AddCertification(d, id)
  }

  /** The remove button of an entry: no entry of that section keeps the id. */
  function ApplyRemove(d: ResumeData, s: Section, id: string): (r: ResumeData)
    ensures id !in SectionIds(r, s)
    ensures id !in SectionIds(d, s) ==> r == d
    ensures SameElsewhere(d, r, s)
  {
    match s
    case ExperienceSection => RemoveExperience(d, id)
    case EducationSection => RemoveEducation(d, id)
    case SkillsSection => RemoveSkillCategory(d, id)
    case ProjectsSection => RemoveProject(d, id)
    case CertificationsSection => RemoveCertification(d, id)
  }

  /** An add appends an entry whose `gpa` or `link` is `""`. */
  lemma AddKeepsOptionals(d: ResumeData, s: Section, id: string)
    requires OptionalsSet(d)
    ensures OptionalsSet(ApplyAdd(d, s, id))
  {
    var r := ApplyAdd(d, s, id);
    match s {
      case EducationSection => assert r.education == d.education + [NewEducation(id)];
      case ProjectsSection => assert r.projects == d.projects + [NewProject(id)];
      case CertificationsSection => assert r.certifications == d.certifications + [NewCertification(id)];
      case _ =>
    }
  }

  /** A removal keeps only entries that were there before. */
  lemma RemoveKeepsOptionals(d: ResumeData, s: Section, id: string)
    requires OptionalsSet(d)
    ensures OptionalsSet(ApplyRemove(d, s, id))
  {
    var r := ApplyRemove(d, s, id);
    forall i | 0 <= i < |r.education| ensures r.education[i].gpa.Some? {
      var j :| 0 <= j < |d.education| && d.education[j] == r.education[i];
    }
    forall i | 0 <= i < |r.projects| ensures r.projects[i].link.Some? {
      var j :| 0 <= j < |d.projects| && d.projects[j] == r.projects[i];
    }
    forall i | 0 <= i < |r.certifications| ensures r.certifications[i].link.Some? {
      var j :| 0 <= j < |d.certifications| && d.certifications[j] == r.certifications[i];
    }
  }

  /** An edit of `gpa` or `link` stores text, never `undefined`. */
  lemma EditKeepsOptionals(d: ResumeData, a: Action)
    requires (a.EditEducation? || a.EditProject? || a.EditCertification?) && WellTyped(a)
    requires OptionalsSet(d)
    ensures OptionalsSet(Apply(d, a))
  {
    match a
    case EditEducation(id, f, v) =>
      var r := UpdateEducation(d, id, f, v);
      forall i | 0 <= i < |r.education| ensures r.education[i].gpa.Some? {
        if d.education[i].id == id {
          assert GetEducation(r.education[i], Gpa) != Missing;
        }
      }
    case EditProject(id, f, v) =>
      var r := UpdateProject(d, id, f, v);
      forall i | 0 <= i < |r.projects| ensures r.projects[i].link.Some? {
        if d.projects[i].id == id {
          assert GetProject(r.projects[i], ProjectLink) != Missing;
        }
      }
    case EditCertification(id, f, v) =>
      var r := UpdateCertification(d, id, f, v);
      forall i | 0 <= i < |r.certifications| ensures r.certifications[i].link.Some? {
        if d.certifications[i].id == id {
          assert GetCertification(r.certifications[i], CertLink) != Missing;
        }
      }
  }

  /** Every event keeps the optional fields present. */
  lemma ApplyKeepsOptionals(d: ResumeData, a: Action)
    requires WellTyped(a) && OptionalsSet(d)
    ensures OptionalsSet(Apply(d, a))
  {
    match a
    case EditEducation(_, _, _) => EditKeepsOptionals(d, a);
    case EditProject(_, _, _) => EditKeepsOptionals(d, a);
    case EditCertification(_, _, _) => EditKeepsOptionals(d, a);
    case Add(s, id) => AddKeepsOptionals(d, s, id);
    case Remove(s, id) => RemoveKeepsOptionals(d, s, id);
    case _ =>
  }

  /** Every event keeps ids distinct, provided an add uses a fresh id. */
  lemma ApplyKeepsDistinct(d: ResumeData, a: Action)
    requires WellTyped(a) && DistinctAll(d) && FreshAdd(d, a)
    ensures DistinctAll(Apply(d, a))
  {
    match a
    case Add(s, id) => AddKeepsDistinctAll(d, s, id);
    case Remove(s, id) => RemoveKeepsDistinctAll(d, s, id);
    case _ => EditKeepsDistinct(d, a);
  }

  /** An add with a fresh id keeps every section's ids distinct. */
  lemma AddKeepsDistinctAll(d: ResumeData, s: Section, id: string)
    requires DistinctAll(d) && id !in SectionIds(d, s)
    ensures DistinctAll(ApplyAdd(d, s, id))
  {
    match s
    case ExperienceSection => AddKeepsDistinct(d.experience, NewExperience(id), ExperienceId);
    case EducationSection => AddKeepsDistinct(d.education, NewEducation(id), EducationId);
    case SkillsSection => AddKeepsDistinct(d.skills, NewSkillCategory(id), SkillId);
    case ProjectsSection => AddKeepsDistinct(d.projects, NewProject(id), ProjectId);
    case CertificationsSection => AddKeepsDistinct(d.certifications, NewCertification(id), CertificationId);
  }

  /** A removal keeps every section's ids distinct. */
  lemma RemoveKeepsDistinctAll(d: ResumeData, s: Section, id: string)
    requires DistinctAll(d)
    ensures DistinctAll(ApplyRemove(d, s, id))
  {
    match s
    case ExperienceSection => RemoveKeepsDistinct(d.experience, ExperienceId, id);
    case EducationSection => RemoveKeepsDistinct(d.education, EducationId, id);
    case SkillsSection => RemoveKeepsDistinct(d.skills, SkillId, id);
    case ProjectsSection => RemoveKeepsDistinct(d.projects, ProjectId, id);
    case CertificationsSection => RemoveKeepsDistinct(d.certifications, CertificationId, id);
  }

  /** Every other event leaves all ids where they were. */
  lemma EditKeepsDistinct(d: ResumeData, a: Action)
    requires !a.Add? && !a.Remove? && WellTyped(a) && DistinctAll(d)
    ensures DistinctAll(Apply(d, a))
  {
    match a
    case EditExperience(id, f, v) =>
      var r := UpdateExperience(d, id, f, v);
      SameIdsDistinct(d.experience, r.experience, ExperienceId);
    case EditEducation(id, f, v) =>
      var r := UpdateEducation(d, id, f, v);
      SameIdsDistinct(d.education, r.education, EducationId);
    case EditSkillCategory(id, f, v) =>
      var r := UpdateSkillCategory(d, id, f, v);
      SameIdsDistinct(d.skills, r.skills, SkillId);
    case EnterSkillItems(id, text) =>
      var r := UpdateSkillCategory(d, id, Items, List(ParseSkills(text)));
      SameIdsDistinct(d.skills, r.skills, SkillId);
    case EditProject(id, f, v) =>
      var r := UpdateProject(d, id, f, v);
      SameIdsDistinct(d.projects, r.projects, ProjectId);
    case EditCertification(id, f, v) =>
      var r := UpdateCertification(d, id, f, v);
      SameIdsDistinct(d.certifications, r.certifications, CertificationId);
    case SetPersonalField(_, _) =>
    case EnterPhone(_) =>
  }

  /** Every event of a session is well typed and every add uses a fresh id. */
  predicate ValidRun(d: ResumeData, run: seq<Action>)
    decreases |run|
  {
    run == [] || (WellTyped(run[0]) && FreshAdd(d, run[0]) && ValidRun(Apply(d, run[0]), run[1..]))
  }

  /** The record after a sequence of events. */
  function Replay(d: ResumeData, run: seq<Action>): ResumeData
    requires forall i :: 0 <= i < |run| ==> WellTyped(run[i])
    decreases |run|
  {
    if run == [] then d else Replay(Apply(d, run[0]), run[1..])
  }

  /** A session that starts from the initial record and adds with fresh ids
      keeps ids distinct and the optional fields present throughout. */
  lemma {:induction false} ReplayKeepsInvariants(d: ResumeData, run: seq<Action>)
    requires forall i :: 0 <= i < |run| ==> WellTyped(run[i])
    requires ValidRun(d, run)
    requires DistinctAll(d) && OptionalsSet(d)
    ensures DistinctAll(Replay(d, run)) && OptionalsSet(Replay(d, run))
    decreases |run|
  {
    if run != [] {
      ApplyKeepsDistinct(d, run[0]);
      ApplyKeepsOptionals(d, run[0]);
      ReplayKeepsInvariants(Apply(d, run[0]), run[1..]);
    }
  }

  /** The initial record satisfies both invariants. */
  lemma InitialInvariants()
    ensures DistinctAll(InitialData()) && OptionalsSet(InitialData())
  {
  }

  /** Adding an entry with a fresh id and then removing it restores the record. */
  lemma AddThenRemove(d: ResumeData, s: Section, id: string)
    requires id !in SectionIds(d, s)
    ensures ApplyRemove(ApplyAdd(d, s, id), s, id) == d
  {
    match s
    case ExperienceSection =>
      Entries.AddThenRemove(d.experience, NewExperience(id), ExperienceId);
    case EducationSection =>
      Entries.AddThenRemove(d.education, NewEducation(id), EducationId);
    case SkillsSection =>
      Entries.AddThenRemove(d.skills, NewSkillCategory(id), SkillId);
    case ProjectsSection =>
      Entries.AddThenRemove(d.projects, NewProject(id), ProjectId);
    case CertificationsSection =>
      Entries.AddThenRemove(d.certifications, NewCertification(id), CertificationId);
  }
}
