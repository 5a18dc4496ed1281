/** The education and experience entries of the resume editor
    (src/components/jarvis/ResumeBuilder.tsx) as the objects they are at run
    time. The field edits copy the list with `[...resume.education]`, which
    copies references and not entries, and then assign a field of
    `newEdu[index]`: the assignment lands in the entry object the current
    resume holds as well. */
module ResumeEntries {
  import opened ResumeBuilder

  class EducationEntry {
    var school: string
    var degree: string
    var year: string

    constructor (e: Education)
      ensures Value() == e
    {
      school, degree, year := e.school, e.degree, e.year;
    }

    function Value(): Education
      reads this
    {
      Education(school, degree, year)
    }
  }

  class ExperienceEntry {
    var company: string
    var role: string
    var duration: string
    var description: string

    constructor (e: Experience)
      ensures Value() == e
    {
      company, role, duration, description := e.company, e.role, e.duration, e.description;
    }

    function Value(): Experience
      reads this
    {
      Experience(company, role, duration, description)
    }
  }

  /** The education field edit as written: the copied list holds the very
      same entries, and the entry in slot `index` is changed in place. */
  method EditEducationInPlace(entries: seq<EducationEntry>, index: nat, f: EducationField, value: string)
    returns (updated: seq<EducationEntry>)
    requires index < |entries|
    modifies entries[index]
    ensures updated == entries
    ensures entries[index].Value() == EducationSet(old(entries[index].Value()), f, value)
  {
    var copy := new EducationEntry[|entries|](i requires 0 <= i < |entries| => entries[i]);
    var entry := copy[index];
    match f {
      case School => entry.school := value;
      case Degree => entry.degree := value;
      case Year => entry.year := value;
    }
    updated := copy[..];
  }

  /** The experience field edit as written. */
  method EditExperienceInPlace(entries: seq<ExperienceEntry>, index: nat, f: ExperienceField, value: string)
    returns (updated: seq<ExperienceEntry>)
    requires index < |entries|
    modifies entries[index]
    ensures updated == entries
    ensures entries[index].Value() == ExperienceSet(old(entries[index].Value()), f, value)
  {
    var copy := new ExperienceEntry[|entries|](i requires 0 <= i < |entries| => entries[i]);
    var entry := copy[index];
    match f {
      case Company => entry.company := value;
      case Role => entry.role := value;
      case Duration => entry.duration := value;
      case Description => entry.description := value;
    }
    updated := copy[..];
  }

  /** Typing "Stanford" over "MIT" in the school field of a one-entry
      resume: the entry as the previous resume holds it reads "MIT" before
      the edit and "Stanford" after it, so the previous state changed. */
  method PreviousResumeSeesEdit() returns (before: Education, after: Education)
    ensures before == Education("MIT", "BSc", "2020")
    ensures after == Education("Stanford", "BSc", "2020")
  {
    var entry := new EducationEntry(Education("MIT", "BSc", "2020"));
    var previous := [entry];
    before := previous[0].Value();
    var updated := EditEducationInPlace(previous, 0, School, "Stanford");
    after := previous[0].Value();
  }

  /** The intended education edit: a fresh entry replaces slot `index`, and
      no entry of the previous resume changes. */
  method EditEducationCopied(entries: seq<EducationEntry>, index: nat, f: EducationField, value: string)
    returns (updated: seq<EducationEntry>)
    requires index < |entries|
    ensures |updated| == |entries| && fresh(updated[index])
    ensures updated[index].Value() == EducationSet(entries[index].Value(), f, value)
    ensures forall i :: 0 <= i < |entries| && i != index ==> updated[i] == entries[i]
    ensures forall i :: 0 <= i < |entries| ==> entries[i].Value() == old(entries[i].Value())
  {
    var entry := new EducationEntry(EducationSet(entries[index].Value(), f, value));
    updated := entries[index := entry];
  }

  /** The intended experience edit. */
  method EditExperienceCopied(entries: seq<ExperienceEntry>, index: nat, f: ExperienceField, value: string)
    returns (updated: seq<ExperienceEntry>)
    requires index < |entries|
    ensures |updated| == |entries| && fresh(updated[index])
    ensures updated[index].Value() == ExperienceSet(entries[index].Value(), f, value)
    ensures forall i :: 0 <= i < |entries| && i != index ==> updated[i] == entries[i]
    ensures forall i :: 0 <= i < |entries| ==> entries[i].Value() == old(entries[i].Value())
  {
    var entry := new ExperienceEntry(ExperienceSet(entries[index].Value(), f, value));
    updated := entries[index := entry];
  }

  /** With the intended edit the scenario above leaves the previous resume
      as it was and the new one holds the edited entry. */
  method PreviousResumeKeptByCopy() returns (before: Education, after: Education, edited: Education)
    ensures before == after == Education("MIT", "BSc", "2020")
    ensures edited == Education("Stanford", "BSc", "2020")
  {
    var entry := new EducationEntry(Education("MIT", "BSc", "2020"));
    var previous := [entry];
    before := previous[0].Value();
    var updated := EditEducationCopied(previous, 0, School, "Stanford");
    after := previous[0].Value();
    edited := updated[0].Value();
  }
}
