/** The section editors of the form. Every handler builds the whole next
    record from the current one (object spread, `map`, `filter`, array
    spread) and hands it to `onChange` once; here each handler is a function
    from the current record to the next one. */
module Editor {
  import opened Strings
  import opened Resume
  import opened Entries

  function ExperienceId(e: Experience): string { e.id }
  function EducationId(e: Education): string { e.id }
  function SkillId(s: SkillCategory): string { s.id }
  function ProjectId(p: Project): string { p.id }
  function CertificationId(c: Certification): string { c.id }

  // ---------------------------------------------------------------------
  // Personal information

  /** `updatePersonalInfo(field, value)`. */
  function UpdatePersonalInfo(d: ResumeData, f: PersonalField, v: string): (r: ResumeData)
    ensures GetPersonal(r.personalInfo, f) == v
    ensures forall g :: g != f ==> GetPersonal(r.personalInfo, g) == GetPersonal(d.personalInfo, g)
    ensures r.(personalInfo := d.personalInfo) == d
  {
    d.(personalInfo := SetPersonal(d.personalInfo, f, v))
  }

  /** A character the phone input keeps: an ASCII digit (`\d`) or `-`. */
  predicate IsPhoneChar(c: char) {
    '0' <= c <= '9' || c == '-'
  }

  /** `value.replace(/[^\d-]/g, "")`. */
  function SanitizePhone(s: string): (r: string)
    ensures |r| <= |s|
    ensures forall i :: 0 <= i < |r| ==> IsPhoneChar(r[i])
  {
    if s == [] then ""
    else if IsPhoneChar(s[0]) then [s[0]] + SanitizePhone(s[1..])
    else SanitizePhone(s[1..])
  }

  /** The sanitiser works character by character: it keeps the order of what it keeps. */
  lemma {:induction false} SanitizeAppend(a: string, b: string)
    ensures SanitizePhone(a + b) == SanitizePhone(a) + SanitizePhone(b)
  {
    if a == [] {
      assert a + b == b;
    } else {
      assert (a + b)[0] == a[0];
      assert (a + b)[1..] == a[1..] + b;
      SanitizeAppend(a[1..], b);
    }
  }

  /** Every digit and `-` of the input survives, every other character is dropped. */
  lemma {:induction false} SanitizeKeepsExactly(s: string, c: char)
    ensures multiset(SanitizePhone(s))[c] == if IsPhoneChar(c) then multiset(s)[c] else 0
  {
    if s != [] {
      SanitizeKeepsExactly(s[1..], c);
      assert s == [s[0]] + s[1..];
    }
  }

  /** A string made only of digits and `-` passes unchanged; so sanitising twice is sanitising once. */
  lemma {:induction false} SanitizeIdempotent(s: string)
    ensures (forall i :: 0 <= i < |s| ==> IsPhoneChar(s[i])) ==> SanitizePhone(s) == s
    ensures SanitizePhone(SanitizePhone(s)) == SanitizePhone(s)
  {
    if s != [] {
      SanitizeIdempotent(s[1..]);
      var t := SanitizePhone(s[1..]);
      if IsPhoneChar(s[0]) {
        assert SanitizePhone(s) == [s[0]] + t;
        assert ([s[0]] + t)[0] == s[0] && ([s[0]] + t)[1..] == t;
      }
      if forall i :: 0 <= i < |s| ==> IsPhoneChar(s[i]) {
        assert forall i :: 0 <= i < |s[1..]| ==> IsPhoneChar(s[1..][i]) by {
          forall i | 0 <= i < |s[1..]| ensures IsPhoneChar(s[1..][i]) { assert s[1..][i] == s[i + 1]; }
        }
        assert s == [s[0]] + s[1..];
      }
    }
  }

  /** The phone input's change handler: the sanitised text becomes the phone field. */
  function OnPhoneInput(d: ResumeData, raw: string): (r: ResumeData)
    ensures forall i :: 0 <= i < |r.personalInfo.phone| ==> IsPhoneChar(r.personalInfo.phone[i])
    ensures forall g :: g != Phone ==> GetPersonal(r.personalInfo, g) == GetPersonal(d.personalInfo, g)
    ensures r.(personalInfo := d.personalInfo) == d
  {
    UpdatePersonalInfo(d, Phone, SanitizePhone(raw))
  }

  // ---------------------------------------------------------------------
  // Skills text: `items.join(", ")` is shown, `text.split(",").map(trim)` is stored.

  /** The text the skills input displays for a list of items. */
  function ShowSkills(items: seq<string>): string {
    Join(items, ", ")
  }

  /** `xs.map(f)`. */
  function Map<T, U>(xs: seq<T>, f: T -> U): (ys: seq<U>)
    ensures |ys| == |xs|
    ensures forall i {:trigger ys[i]} :: 0 <= i < |ys| ==> ys[i] == f(xs[i])
  {
    if xs == [] then [] else [f(xs[0])] + Map(xs[1..], f)
  }

  /** Mapping over a concatenation maps each side. */
  lemma {:induction false} MapAppend<T, U>(a: seq<T>, b: seq<T>, f: T -> U)
    ensures Map(a + b, f) == Map(a, f) + Map(b, f)
  {
    if a != [] {
      assert (a + b)[1..] == a[1..] + b;
      MapAppend(a[1..], b, f);
    } else {
      assert a + b == b;
    }
  }

  /** `parts.map((s) => s.trim())`. */
  function TrimEach(parts: seq<string>): (items: seq<string>)
    ensures |items| == |parts|
    ensures forall i {:trigger items[i]} :: 0 <= i < |items| ==> items[i] == Trim(parts[i])
  {
    Map(parts, Trim)
  }

  /** Trimming keeps out a character that none of the pieces holds. */
  lemma TrimEachClean(parts: seq<string>, c: char)
    requires forall i :: 0 <= i < |parts| ==> c !in parts[i]
    ensures forall i :: 0 <= i < |parts| ==> IsTrimmed(TrimEach(parts)[i]) && c !in TrimEach(parts)[i]
  {
    forall i | 0 <= i < |parts| ensures IsTrimmed(TrimEach(parts)[i]) && c !in TrimEach(parts)[i] {
      var t := Trim(parts[i]);
      assert TrimEach(parts)[i] == t;
      assert c !in t;
    }
  }

  /** `text.split(",").map((s) => s.trim())`: one trimmed item per comma-separated
      piece, empty pieces included. */
  function ParseSkills(text: string): (items: seq<string>)
    ensures |items| == |Split(text, ',')|
    ensures forall i :: 0 <= i < |items| ==> IsTrimmed(items[i]) && ',' !in items[i]
    ensures forall i {:trigger items[i]} :: 0 <= i < |items| ==> items[i] == Trim(Split(text, ',')[i])
  {
    var parts := Split(text, ',');
    TrimEachClean(parts, ',');
    TrimEach(parts)
  }

  /** There are as many items as commas plus one: empty pieces are kept. */
  lemma ParseSkillsCount(text: string)
    ensures |ParseSkills(text)| == multiset(text)[','] + 1
  {
    SplitCount(text, ',');
  }

  /** A piece without a comma is one item. */
  lemma ParseSkillsPiece(w: string)
    requires ',' !in w
    ensures ParseSkills(w) == [Trim(w)]
  {
    SplitJoin([w], ',');
    assert Map([w], Trim)[1..] == Map([], Trim);
  }

  /** Comma-free pieces joined with commas parse back to the pieces, trimmed. */
  lemma ParseSkillsJoin(pieces: seq<string>)
    requires |pieces| >= 1
    requires forall i :: 0 <= i < |pieces| ==> ',' !in pieces[i]
    ensures |ParseSkills(Join(pieces, ","))| == |pieces|
    ensures forall i :: 0 <= i < |pieces| ==> ParseSkills(Join(pieces, ","))[i] == Trim(pieces[i])
  {
    SplitJoin(pieces, ',');
  }

  /** Four comma-free pieces give four items, each trimmed on its own. */
  lemma ParseSkillsFour(a: string, b: string, c: string, d: string)
    requires ',' !in a && ',' !in b && ',' !in c && ',' !in d
    ensures ParseSkills(a + "," + (b + "," + (c + "," + d))) == [Trim(a), Trim(b), Trim(c), Trim(d)]
  {
    ParseSkillsAppend(c, d);
    ParseSkillsAppend(b, c + "," + d);
    ParseSkillsAppend(a, b + "," + (c + "," + d));
    ParseSkillsPiece(a);
    ParseSkillsPiece(b);
    ParseSkillsPiece(c);
    ParseSkillsPiece(d);
    ListOfFour(Trim(a), Trim(b), Trim(c), Trim(d));
  }

  lemma ListOfFour(x: string, y: string, z: string, w: string)
    ensures [x] + ([y] + ([z] + [w])) == [x, y, z, w]
  {
  }

  /** The example of the skills input: a blank piece and a trailing comma each
      give an empty item, and the other pieces lose their surrounding blanks. */
  lemma ParseSkillsExample()
    ensures ParseSkills("JS, , React ,") == ["JS", "", "React", ""]
  {
    assert "JS, , React ," == "JS" + "," + (" " + "," + (" React " + "," + ""));
    ParseSkillsFour("JS", " ", " React ", "");
    ExampleTrimWord();
    ExampleTrimBlank();
    ExampleTrimEmpty();
    ExampleTrimReact();
  }

  // Each literal is trimmed in a lemma of its own: together they make the
  // solver unfold every character of every literal at once.

  lemma ExampleTrimWord()
    ensures Trim("JS") == "JS"
  {
    TrimOfTrimmed("JS");
  }

  lemma ExampleTrimBlank()
    ensures Trim(" ") == ""
  {
    TrimBlank(" ");
  }

  lemma ExampleTrimEmpty()
    ensures Trim("") == ""
  {
    TrimBlank("");
  }

  lemma ExampleTrimReact()
    ensures Trim(" React ") == "React"
  {
    var w := "React";
    assert " React " == [' '] + (w + " ") && !IsWhitespace(w[0]);
    assert TrimStart(w + " ") == w + " ";
    assert TrimEnd(w + " ") == TrimEnd(w) == w;
  }

  /** Each comma-separated piece is parsed on its own. */
  lemma ParseSkillsAppend(a: string, b: string)
    ensures ParseSkills(a + "," + b) == ParseSkills(a) + ParseSkills(b)
  {
    SplitAppend(a, b, ',');
    MapAppend(Split(a, ','), Split(b, ','), Trim);
  }

  /** A piece that is empty or blank is kept as an empty item rather than dropped. */
  lemma ParseSkillsBlank(w: string)
    requires forall i :: 0 <= i < |w| ==> IsWhitespace(w[i])
    ensures ParseSkills(w) == [""]
  {
    assert forall i :: 0 <= i < |w| ==> w[i] != ',';
    SplitJoin([w], ',');
    TrimBlank(w);
  }

  function Spaced(items: seq<string>): (r: seq<string>)
    ensures |r| == |items|
  {
    seq(|items|, i requires 0 <= i < |items| => " " + items[i])
  }

  lemma {:induction false} JoinSpaced(items: seq<string>)
    requires |items| >= 1
    ensures Join(Spaced(items), ",") == " " + Join(items, ", ")
  {
    if |items| >= 2 {
      JoinSpaced(items[1..]);
      assert Spaced(items)[1..] == Spaced(items[1..]);
    }
  }

  /** The pieces the input's text splits into at the commas. */
  function ShownPieces(items: seq<string>): (pieces: seq<string>)
    requires |items| >= 1
    ensures |pieces| == |items|
  {
    [items[0]] + Spaced(items[1..])
  }

  lemma ShownPiecesJoin(items: seq<string>)
    requires |items| >= 1
    ensures Join(ShownPieces(items), ",") == ShowSkills(items)
  {
    var pieces := ShownPieces(items);
    if |items| >= 2 {
      JoinSpaced(items[1..]);
      assert pieces[1..] == Spaced(items[1..]);
    }
  }

  lemma ShownPieceAt(items: seq<string>, i: nat)
    requires |items| >= 1 && i < |items|
    ensures ShownPieces(items)[i] == if i == 0 then items[0] else " " + items[i]
  {
    if i > 0 {
      assert ShownPieces(items)[i] == Spaced(items[1..])[i - 1];
      assert items[1..][i - 1] == items[i];
    }
  }

  lemma ShownPieceTrims(items: seq<string>, i: nat)
    requires |items| >= 1 && i < |items|
    requires IsTrimmed(items[i])
    ensures Trim(ShownPieces(items)[i]) == items[i]
  {
    ShownPieceAt(items, i);
    TrimOfTrimmed(items[i]);
  }

  lemma ShownPieceCommaFree(items: seq<string>, i: nat)
    requires |items| >= 1 && i < |items|
    requires ',' !in items[i]
    ensures ',' !in ShownPieces(items)[i]
  {
    ShownPieceAt(items, i);
    if i > 0 {
      var p := " " + items[i];
      forall k | 0 <= k < |p| ensures p[k] != ',' {
        if k > 0 { assert p[k] == items[i][k - 1]; }
      }
    }
  }

  /** Reading back what the input shows returns the stored items, when there is at
      least one item and every item is trimmed and free of commas. */
  lemma SkillsRoundTrip(items: seq<string>)
    requires |items| >= 1
    requires forall i :: 0 <= i < |items| ==> IsTrimmed(items[i]) && ',' !in items[i]
    ensures ParseSkills(ShowSkills(items)) == items
  {
    var pieces := ShownPieces(items);
    ShownPiecesJoin(items);
    forall i | 0 <= i < |pieces| ensures ',' !in pieces[i] && Trim(pieces[i]) == items[i] {
      ShownPieceTrims(items, i);
      ShownPieceCommaFree(items, i);
    }
    SplitJoin(pieces, ',');
  }

  /** The round trip fails for the empty list: it comes back as one empty item. */
  lemma SkillsRoundTripEmpty()
    ensures ParseSkills(ShowSkills([])) == [""]
  {
    assert Split("", ',') == [""];
  }

  // ---------------------------------------------------------------------
  // Experience

  function NewExperience(id: string): Experience {
    Experience(id, "", "", "", "", false, "")
  }

  function ExperienceDefault(f: ExperienceField): Value {
    if f == Current then Flag(false) else Text("")
  }

  /** `addExperience()`, with the id that `Date.now()` would have produced. */
  function AddExperience(d: ResumeData, id: string): (r: ResumeData)
    ensures |r.experience| == |d.experience| + 1
    ensures r.experience[..|d.experience|] == d.experience
    ensures r.experience[|d.experience|].id == id
    ensures forall f :: GetExperience(r.experience[|d.experience|], f) == ExperienceDefault(f)
    ensures r.(experience := d.experience) == d
  {
    d.(experience := d.experience + [NewExperience(id)])
  }

  /** `updateExperience(id, field, value)`. */
  function UpdateExperience(d: ResumeData, id: string, f: ExperienceField, v: Value): (r: ResumeData)
    requires ExperienceFits(f, v)
    ensures |r.experience| == |d.experience|
    ensures forall i :: 0 <= i < |d.experience| ==>
      r.experience[i] == if d.experience[i].id == id then PutExperience(d.experience[i], f, v) else d.experience[i]
    ensures id !in Ids(d.experience, ExperienceId) ==> r == d
    ensures Ids(r.experience, ExperienceId) == Ids(d.experience, ExperienceId)
    ensures r.(experience := d.experience) == d
  {
    var edit := (e: Experience) => PutExperience(e, f, v);
    if id !in Ids(d.experience, ExperienceId) then UpdateAbsent(d.experience, ExperienceId, id, edit); d
    else UpdateKeepsIds(d.experience, ExperienceId, id, edit); d.(experience := UpdateWhere(d.experience, ExperienceId, id, edit))
  }

  /** `removeExperience(id)`. */
  function RemoveExperience(d: ResumeData, id: string): (r: ResumeData)
    ensures forall i :: 0 <= i < |r.experience| ==> r.experience[i] in d.experience && r.experience[i].id != id
    ensures forall i :: 0 <= i < |d.experience| && d.experience[i].id != id ==> d.experience[i] in r.experience
    ensures id !in Ids(d.experience, ExperienceId) ==> r == d
    ensures r.experience == RemoveWhere(d.experience, ExperienceId, id)
    ensures r.(experience := d.experience) == d
    ensures id !in Ids(r.experience, ExperienceId)
  {
    if id !in Ids(d.experience, ExperienceId) then RemoveAbsent(d.experience, ExperienceId, id); d
    else RemoveDropsId(d.experience, ExperienceId, id); d.(experience := RemoveWhere(d.experience, ExperienceId, id))
  }

  // ---------------------------------------------------------------------
  // Education

  function NewEducation(id: string): Education {
    Education(id, "", "", "", "", "", Some(""))
  }

  /** Every field of a new education entry reads as empty text, `gpa` included. */
  function AddEducation(d: ResumeData, id: string): (r: ResumeData)
    ensures |r.education| == |d.education| + 1
    ensures r.education[..|d.education|] == d.education
    ensures r.education[|d.education|].id == id
    ensures forall f :: GetEducation(r.education[|d.education|], f) == Text("")
    ensures r.(education := d.education) == d
  {
    d.(education := d.education + [NewEducation(id)])
  }

  function UpdateEducation(d: ResumeData, id: string, f: EducationField, v: Value): (r: ResumeData)
    requires EducationFits(f, v)
    ensures |r.education| == |d.education|
    ensures forall i :: 0 <= i < |d.education| ==>
      r.education[i] == if d.education[i].id == id then PutEducation(d.education[i], f, v) else d.education[i]
    ensures id !in Ids(d.education, EducationId) ==> r == d
    ensures Ids(r.education, EducationId) == Ids(d.education, EducationId)
    ensures r.(education := d.education) == d
  {
    var edit := (e: Education) => PutEducation(e, f, v);
    if id !in Ids(d.education, EducationId) then UpdateAbsent(d.education, EducationId, id, edit); d
    else UpdateKeepsIds(d.education, EducationId, id, edit); d.(education := UpdateWhere(d.education, EducationId, id, edit))
  }

  function RemoveEducation(d: ResumeData, id: string): (r: ResumeData)
    ensures forall i :: 0 <= i < |r.education| ==> r.education[i] in d.education && r.education[i].id != id
    ensures forall i :: 0 <= i < |d.education| && d.education[i].id != id ==> d.education[i] in r.education
    ensures id !in Ids(d.education, EducationId) ==> r == d
    ensures r.education == RemoveWhere(d.education, EducationId, id)
    ensures r.(education := d.education) == d
    ensures id !in Ids(r.education, EducationId)
  {
    if id !in Ids(d.education, EducationId) then RemoveAbsent(d.education, EducationId, id); d
    else RemoveDropsId(d.education, EducationId, id); d.(education := RemoveWhere(d.education, EducationId, id))
  }

  // ---------------------------------------------------------------------
  // Skills

  function NewSkillCategory(id: string): SkillCategory {
    SkillCategory(id, "", [])
  }

  function SkillDefault(f: SkillField): Value {
    if f == Items then List([]) else Text("")
  }

  function AddSkillCategory(d: ResumeData, id: string): (r: ResumeData)
    ensures |r.skills| == |d.skills| + 1
    ensures r.skills[..|d.skills|] == d.skills
    ensures r.skills[|d.skills|].id == id
    ensures forall f :: GetSkill(r.skills[|d.skills|], f) == SkillDefault(f)
    ensures r.(skills := d.skills) == d
  {
    d.(skills := d.skills + [NewSkillCategory(id)])
  }

  function UpdateSkillCategory(d: ResumeData, id: string, f: SkillField, v: Value): (r: ResumeData)
    requires SkillFits(f, v)
    ensures |r.skills| == |d.skills|
    ensures forall i :: 0 <= i < |d.skills| ==>
      r.skills[i] == if d.skills[i].id == id then PutSkill(d.skills[i], f, v) else d.skills[i]
    ensures id !in Ids(d.skills, SkillId) ==> r == d
    ensures Ids(r.skills, SkillId) == Ids(d.skills, SkillId)
    ensures r.(skills := d.skills) == d
  {
    var edit := (s: SkillCategory) => PutSkill(s, f, v);
    if id !in Ids(d.skills, SkillId) then UpdateAbsent(d.skills, SkillId, id, edit); d
    else UpdateKeepsIds(d.skills, SkillId, id, edit); d.(skills := UpdateWhere(d.skills, SkillId, id, edit))
  }

  function RemoveSkillCategory(d: ResumeData, id: string): (r: ResumeData)
    ensures forall i :: 0 <= i < |r.skills| ==> r.skills[i] in d.skills && r.skills[i].id != id
    ensures forall i :: 0 <= i < |d.skills| && d.skills[i].id != id ==> d.skills[i] in r.skills
    ensures id !in Ids(d.skills, SkillId) ==> r == d
    ensures r.skills == RemoveWhere(d.skills, SkillId, id)
    ensures r.(skills := d.skills) == d
    ensures id !in Ids(r.skills, SkillId)
  {
    if id !in Ids(d.skills, SkillId) then RemoveAbsent(d.skills, SkillId, id); d
    else RemoveDropsId(d.skills, SkillId, id); d.(skills := RemoveWhere(d.skills, SkillId, id))
  }

  /** The skills input's change handler: the parsed pieces become the items of
      every category with that id. */
  function OnSkillsInput(d: ResumeData, id: string, text: string): (r: ResumeData)
    ensures |r.skills| == |d.skills|
    ensures forall i :: 0 <= i < |d.skills| ==>
      r.skills[i] == if d.skills[i].id == id then d.skills[i].(items := ParseSkills(text)) else d.skills[i]
    ensures r.(skills := d.skills) == d
  {
    UpdateSkillCategory(d, id, Items, List(ParseSkills(text)))
  }

  // ---------------------------------------------------------------------
  // Projects

  function NewProject(id: string): Project {
    Project(id, "", "", "", Some(""))
  }

  function AddProject(d: ResumeData, id: string): (r: ResumeData)
    ensures |r.projects| == |d.projects| + 1
    ensures r.projects[..|d.projects|] == d.projects
    ensures r.projects[|d.projects|].id == id
    ensures forall f :: GetProject(r.projects[|d.projects|], f) == Text("")
    ensures r.(projects := d.projects) == d
  {
    d.(projects := d.projects + [NewProject(id)])
  }

  function UpdateProject(d: ResumeData, id: string, f: ProjectField, v: Value): (r: ResumeData)
    requires ProjectFits(f, v)
    ensures |r.projects| == |d.projects|
    ensures forall i :: 0 <= i < |d.projects| ==>
      r.projects[i] == if d.projects[i].id == id then PutProject(d.projects[i], f, v) else d.projects[i]
    ensures id !in Ids(d.projects, ProjectId) ==> r == d
    ensures Ids(r.projects, ProjectId) == Ids(d.projects, ProjectId)
    ensures r.(projects := d.projects) == d
  {
    var edit := (p: Project) => PutProject(p, f, v);
    if id !in Ids(d.projects, ProjectId) then UpdateAbsent(d.projects, ProjectId, id, edit); d
    else UpdateKeepsIds(d.projects, ProjectId, id, edit); d.(projects := UpdateWhere(d.projects, ProjectId, id, edit))
  }

  function RemoveProject(d: ResumeData, id: string): (r: ResumeData)
    ensures forall i :: 0 <= i < |r.projects| ==> r.projects[i] in d.projects && r.projects[i].id != id
    ensures forall i :: 0 <= i < |d.projects| && d.projects[i].id != id ==> d.projects[i] in r.projects
    ensures id !in Ids(d.projects, ProjectId) ==> r == d
    ensures r.projects == RemoveWhere(d.projects, ProjectId, id)
    ensures r.(projects := d.projects) == d
    ensures id !in Ids(r.projects, ProjectId)
  {
    if id !in Ids(d.projects, ProjectId) then RemoveAbsent(d.projects, ProjectId, id); d
    else RemoveDropsId(d.projects, ProjectId, id); d.(projects := RemoveWhere(d.projects, ProjectId, id))
  }

  // ---------------------------------------------------------------------
  // Certifications

  function NewCertification(id: string): Certification {
    Certification(id, "", "", "", Some(""))
  }

  function AddCertification(d: ResumeData, id: string): (r: ResumeData)
    ensures |r.certifications| == |d.certifications| + 1
    ensures r.certifications[..|d.certifications|] == d.certifications
    ensures r.certifications[|d.certifications|].id == id
    ensures forall f :: GetCertification(r.certifications[|d.certifications|], f) == Text("")
    ensures r.(certifications := d.certifications) == d
  {
    d.(certifications := d.certifications + [NewCertification(id)])
  }

  function UpdateCertification(d: ResumeData, id: string, f: CertificationField, v: Value): (r: ResumeData)
    requires CertificationFits(f, v)
    ensures |r.certifications| == |d.certifications|
    ensures forall i :: 0 <= i < |d.certifications| ==>
      r.certifications[i] == if d.certifications[i].id == id then PutCertification(d.certifications[i], f, v) else d.certifications[i]
    ensures id !in Ids(d.certifications, CertificationId) ==> r == d
    ensures Ids(r.certifications, CertificationId) == Ids(d.certifications, CertificationId)
    ensures r.(certifications := d.certifications) == d
  {
    var edit := (c: Certification) => PutCertification(c, f, v);
    if id !in Ids(d.certifications, CertificationId) then UpdateAbsent(d.certifications, CertificationId, id, edit); d
    else UpdateKeepsIds(d.certifications, CertificationId, id, edit); d.(certifications := UpdateWhere(d.certifications, CertificationId, id, edit))
  }

  function RemoveCertification(d: ResumeData, id: string): (r: ResumeData)
    ensures forall i :: 0 <= i < |r.certifications| ==> r.certifications[i] in d.certifications && r.certifications[i].id != id
    ensures forall i :: 0 <= i < |d.certifications| && d.certifications[i].id != id ==> d.certifications[i] in r.certifications
    ensures id !in Ids(d.certifications, CertificationId) ==> r == d
    ensures r.certifications == RemoveWhere(d.certifications, CertificationId, id)
    ensures r.(certifications := d.certifications) == d
    ensures id !in Ids(r.certifications, CertificationId)
  {
    if id !in Ids(d.certifications, CertificationId) then RemoveAbsent(d.certifications, CertificationId, id); d
    else RemoveDropsId(d.certifications, CertificationId, id); d.(certifications := RemoveWhere(d.certifications, CertificationId, id))
  }
}
