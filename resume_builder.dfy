/** The resume editor (src/components/jarvis/ResumeBuilder.tsx). Every edit
    builds a whole new resume record and hands it to `onUpdateResume`. The
    add, delete and personal-field edits are pure record updates; the entry
    and skill edits copy the list into a fresh array and assign one slot of
    it. */
module ResumeBuilder {
  import opened Seqs

  datatype Education = Education(school: string, degree: string, year: string)

  datatype Experience = Experience(company: string, role: string, duration: string, description: string)

  datatype ResumeData = ResumeData(
    name: string, email: string, phone: string, summary: string,
    education: seq<Education>, experience: seq<Experience>, skills: seq<string>)

  datatype PersonalField = Name | Email | Phone | Summary

  datatype EducationField = School | Degree | Year

  datatype ExperienceField = Company | Role | Duration | Description

  function Personal(resume: ResumeData, f: PersonalField): string
  {
    match f
    case Name => resume.name
    case Email => resume.email
    case Phone => resume.phone
    case Summary => resume.summary
  }

  function EducationGet(e: Education, f: EducationField): string
  {
    match f
    case School => e.school
    case Degree => e.degree
    case Year => e.year
  }

  function EducationSet(e: Education, f: EducationField, value: string): Education
  {
    match f
    case School => e.(school := value)
    case Degree => e.(degree := value)
    case Year => e.(year := value)
  }

  function ExperienceGet(e: Experience, f: ExperienceField): string
  {
    match f
    case Company => e.company
    case Role => e.role
    case Duration => e.duration
    case Description => e.description
  }

  function ExperienceSet(e: Experience, f: ExperienceField, value: string): Experience
  {
    match f
    case Company => e.(company := value)
    case Role => e.(role := value)
    case Duration => e.(duration := value)
    case Description => e.(description := value)
  }

  /** The two records agree on the name, email, phone and summary. */
  predicate SamePersonal(a: ResumeData, b: ResumeData)
  {
    forall f: PersonalField :: Personal(a, f) == Personal(b, f)
  }

  /** The `onChange` of the name, email, phone or summary input:
      `{ ...resume, <field>: value }`. */
  function SetPersonal(resume: ResumeData, f: PersonalField, value: string): (r: ResumeData)
    ensures Personal(r, f) == value
    ensures forall g :: g != f ==> Personal(r, g) == Personal(resume, g)
    ensures r.education == resume.education && r.experience == resume.experience && r.skills == resume.skills
  {
    match f
    case Name => resume.(name := value)
    case Email => resume.(email := value)
    case Phone => resume.(phone := value)
    case Summary => resume.(summary := value)
  }

  /** Writing a personal field's own value back changes nothing, and a
      second write to the same field overrides the first. */
  lemma SetPersonalLaws(resume: ResumeData, f: PersonalField, v: string, w: string)
    ensures SetPersonal(resume, f, Personal(resume, f)) == resume
    ensures SetPersonal(SetPersonal(resume, f, v), f, w) == SetPersonal(resume, f, w)
  {
  }

  const EmptyEducation := Education("", "", "")

  const EmptyExperience := Experience("", "", "", "")

  /** `addEducation`: one all-empty entry at the end, nothing else changed. */
  function AddEducation(resume: ResumeData): (r: ResumeData)
    ensures |r.education| == |resume.education| + 1
    ensures r.education[..|resume.education|] == resume.education
    ensures r.education[|resume.education|] == EmptyEducation
    ensures SamePersonal(r, resume) && r.experience == resume.experience && r.skills == resume.skills
  {
    resume.(education := resume.education + [EmptyEducation])
  }

  /** `addExperience`: one all-empty entry at the end, nothing else changed. */
  function AddExperience(resume: ResumeData): (r: ResumeData)
    ensures |r.experience| == |resume.experience| + 1
    ensures r.experience[..|resume.experience|] == resume.experience
    ensures r.experience[|resume.experience|] == EmptyExperience
    ensures SamePersonal(r, resume) && r.education == resume.education && r.skills == resume.skills
  {
    resume.(experience := resume.experience + [EmptyExperience])
  }

  /** `addSkill`: an empty skill at the end, nothing else changed. */
  function AddSkill(resume: ResumeData): (r: ResumeData)
    ensures |r.skills| == |resume.skills| + 1
    ensures r.skills[..|resume.skills|] == resume.skills
    ensures r.skills[|resume.skills|] == ""
    ensures SamePersonal(r, resume) && r.education == resume.education && r.experience == resume.experience
  {
    resume.(skills := resume.skills + [""])
  }

  /** The delete button of education entry `index`:
      `education.filter((_, i) => i !== index)`. */
  function DeleteEducation(resume: ResumeData, index: int): (r: ResumeData)
    ensures 0 <= index < |resume.education| ==>
              |r.education| == |resume.education| - 1
              && r.education == resume.education[..index] + resume.education[index + 1..]
    ensures !(0 <= index < |resume.education|) ==> r.education == resume.education
    ensures SamePersonal(r, resume) && r.experience == resume.experience && r.skills == resume.skills
  {
    resume.(education := WithoutIndex(resume.education, index))
  }

  /** The delete button of experience entry `index`. */
  function DeleteExperience(resume: ResumeData, index: int): (r: ResumeData)
    ensures 0 <= index < |resume.experience| ==>
              |r.experience| == |resume.experience| - 1
              && r.experience == resume.experience[..index] + resume.experience[index + 1..]
    ensures !(0 <= index < |resume.experience|) ==> r.experience == resume.experience
    ensures SamePersonal(r, resume) && r.education == resume.education && r.skills == resume.skills
  {
    resume.(experience := WithoutIndex(resume.experience, index))
  }

  /** The delete button of skill `index`. */
  function DeleteSkill(resume: ResumeData, index: int): (r: ResumeData)
    ensures 0 <= index < |resume.skills| ==>
              |r.skills| == |resume.skills| - 1
              && r.skills == resume.skills[..index] + resume.skills[index + 1..]
    ensures !(0 <= index < |resume.skills|) ==> r.skills == resume.skills
    ensures SamePersonal(r, resume) && r.education == resume.education && r.experience == resume.experience
  {
    resume.(skills := WithoutIndex(resume.skills, index))
  }

  /** Deleting the entry just added gives back the resume before the add. */
  lemma DeleteUndoesAdd(resume: ResumeData)
    ensures DeleteEducation(AddEducation(resume), |resume.education|) == resume
    ensures DeleteExperience(AddExperience(resume), |resume.experience|) == resume
    ensures DeleteSkill(AddSkill(resume), |resume.skills|) == resume
  {
    assert (resume.education + [EmptyEducation])[..|resume.education|] == resume.education;
    assert (resume.experience + [EmptyExperience])[..|resume.experience|] == resume.experience;
    assert (resume.skills + [""])[..|resume.skills|] == resume.skills;
  }

  /** The `onChange` of field `f` of education entry `index`: copy the list
      (`[...resume.education]`), assign the field of slot `index`, and build
      the new resume around the copy. */
  method EditEducation(resume: ResumeData, index: nat, f: EducationField, value: string) returns (r: ResumeData)
    requires index < |resume.education|
    ensures |r.education| == |resume.education|
    ensures EducationGet(r.education[index], f) == value
    ensures forall g :: g != f ==> EducationGet(r.education[index], g) == EducationGet(resume.education[index], g)
    ensures forall i :: 0 <= i < |r.education| && i != index ==> r.education[i] == resume.education[i]
    ensures SamePersonal(r, resume) && r.experience == resume.experience && r.skills == resume.skills
  {
    var copy := new Education[|resume.education|](i requires 0 <= i < |resume.education| => resume.education[i]);
    copy[index] := EducationSet(copy[index], f, value);
    r := resume.(education := copy[..]);
  }

  /** The `onChange` of field `f` of experience entry `index`. */
  method EditExperience(resume: ResumeData, index: nat, f: ExperienceField, value: string) returns (r: ResumeData)
    requires index < |resume.experience|
    ensures |r.experience| == |resume.experience|
    ensures ExperienceGet(r.experience[index], f) == value
    ensures forall g :: g != f ==> ExperienceGet(r.experience[index], g) == ExperienceGet(resume.experience[index], g)
    ensures forall i :: 0 <= i < |r.experience| && i != index ==> r.experience[i] == resume.experience[i]
    ensures SamePersonal(r, resume) && r.education == resume.education && r.skills == resume.skills
  {
    var copy := new Experience[|resume.experience|](i requires 0 <= i < |resume.experience| => resume.experience[i]);
    copy[index] := ExperienceSet(copy[index], f, value);
    r := resume.(experience := copy[..]);
  }

  /** The `onChange` of skill `index`: `newSkills[index] = value` on a copy. */
  method EditSkill(resume: ResumeData, index: nat, value: string) returns (r: ResumeData)
    requires index < |resume.skills|
    ensures |r.skills| == |resume.skills| && r.skills[index] == value
    ensures forall i :: 0 <= i < |r.skills| && i != index ==> r.skills[i] == resume.skills[i]
    ensures SamePersonal(r, resume) && r.education == resume.education && r.experience == resume.experience
  {
    var copy := new string[|resume.skills|](i requires 0 <= i < |resume.skills| => resume.skills[i]);
    copy[index] := value;
    r := resume.(skills := copy[..]);
  }
}
