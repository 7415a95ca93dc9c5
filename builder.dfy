/**
 * The resume builder (`generateResume`): a copy of the form state in which
 * every empty field is replaced by a fixed placeholder.  Emptiness is the
 * JavaScript falsiness of a string, so only "" counts as empty: no trimming,
 * " " is kept.  The LinkedIn line and the certifications are never filled.
 */
module Builder {
  import opened Form

  const DEFAULT_FULL_NAME := "Your Full Name"
  const DEFAULT_TITLE := "Professional Title"
  const DEFAULT_EMAIL := "email@example.com"
  const DEFAULT_PHONE := "+1 (555) 123-4567"
  const DEFAULT_LOCATION := "City, State"
  const DEFAULT_SUMMARY :=
    "Results-driven professional "
    + "with expertise in delivering "
    + "high-quality solutions "
    + "and driving organizational "
    + "success through innovative "
    + "strategies and collaborative "
    + "leadership."
  const DEFAULT_SKILLS :=
    "Project Management, Team "
    + "Leadership, Strategic "
    + "Planning, Data Analysis, "
    + "Communication"

  const DEFAULT_COMPANY := "Company Name"
  const DEFAULT_POSITION := "Job Title"
  const DEFAULT_DURATION := "Jan 2020 - Present"
  const DEFAULT_DESCRIPTION :=
    "Led key initiatives and "
    + "achieved measurable results "
    + "through strategic planning "
    + "and execution. Collaborated "
    + "with cross-functional "
    + "teams to deliver projects "
    + "on time and within budget."

  const DEFAULT_INSTITUTION := "University Name"
  const DEFAULT_DEGREE := "Bachelor of Science in Business"
  const DEFAULT_YEAR := "2019"
  const DEFAULT_GPA := "3.8/4.0"

  /** The substitution table for scalar keys; None for the two keys that are never filled. */
  function Placeholder(f: Field): Option<string> {
    match f
    case FullName => Some(DEFAULT_FULL_NAME)
    case Title => Some(DEFAULT_TITLE)
    case Email => Some(DEFAULT_EMAIL)
    case Phone => Some(DEFAULT_PHONE)
    case Location => Some(DEFAULT_LOCATION)
    case LinkedIn => None
    case Summary => Some(DEFAULT_SUMMARY)
    case Skills => Some(DEFAULT_SKILLS)
    case Certifications => None
  }

  /** The substitution table for experience entries. */
  function ExpPlaceholder(f: ExpField): string {
    match f
    case Company => DEFAULT_COMPANY
    case Position => DEFAULT_POSITION
    case Duration => DEFAULT_DURATION
    case Description => DEFAULT_DESCRIPTION
  }

  /** The substitution table for education entries. */
  function EduPlaceholder(f: EduField): string {
    match f
    case Institution => DEFAULT_INSTITUTION
    case Degree => DEFAULT_DEGREE
    case Year => DEFAULT_YEAR
    case Gpa => DEFAULT_GPA
  }

  /** JavaScript `s || d` for a string `s`: only the empty string is falsy. */
  function Or(s: string, d: string): string {
    if s == "" then d else s
  }

  /** The `experience.map(exp => ({ ... }))` callback. */
  function FillExperience(e: Experience): Experience {
    Experience(
      Or(e.company, DEFAULT_COMPANY),
      Or(e.position, DEFAULT_POSITION),
      Or(e.duration, DEFAULT_DURATION),
      Or(e.description, DEFAULT_DESCRIPTION))
  }

  /** The `education.map(edu => ({ ... }))` callback. */
  function FillEducation(e: Education): Education {
    Education(
      Or(e.institution, DEFAULT_INSTITUTION),
      Or(e.degree, DEFAULT_DEGREE),
      Or(e.year, DEFAULT_YEAR),
      Or(e.gpa, DEFAULT_GPA))
  }

  /** Each field of a filled job keeps its value, or takes the field's placeholder when empty. */
  lemma FillExperienceFields(e: Experience)
    ensures forall f :: ExpGet(FillExperience(e), f) == if ExpGet(e, f) == "" then ExpPlaceholder(f) else ExpGet(e, f)
  {
  }

  /** Each field of a filled education entry keeps its value, or takes the field's placeholder when empty. */
  lemma FillEducationFields(e: Education)
    ensures forall f :: EduGet(FillEducation(e), f) == if EduGet(e, f) == "" then EduPlaceholder(f) else EduGet(e, f)
  {
  }

  /** `experience.map(...)`: each entry filled in place, the list keeps its length and order. */
  function FillExperiences(exps: seq<Experience>): (r: seq<Experience>)
    ensures |r| == |exps|
    ensures forall i :: 0 <= i < |exps| ==> r[i] == FillExperience(exps[i])
  {
    seq(|exps|, i requires 0 <= i < |exps| => FillExperience(exps[i]))
  }

  /** `education.map(...)`: each entry filled in place, the list keeps its length and order. */
  function FillEducations(edus: seq<Education>): (r: seq<Education>)
    ensures |r| == |edus|
    ensures forall i :: 0 <= i < |edus| ==> r[i] == FillEducation(edus[i])
  {
    seq(|edus|, i requires 0 <= i < |edus| => FillEducation(edus[i]))
  }

  predicate ExperienceFilled(e: Experience) {
    forall f :: ExpGet(e, f) != ""
  }

  predicate EducationFilled(e: Education) {
    forall f :: EduGet(e, f) != ""
  }

  /**
   * A render-ready state: every scalar that has a placeholder and every field
   * of every entry is non-empty.
   */
  predicate Complete(m: FormState) {
    && (forall f :: Placeholder(f).Some? ==> Get(m, f) != "")
    && (forall i :: 0 <= i < |m.experience| ==> ExperienceFilled(m.experience[i]))
    && (forall i :: 0 <= i < |m.education| ==> EducationFilled(m.education[i]))
  }

  /** `generateResume` as a value: the form state with the substitution policy applied. */
  function Build(raw: FormState): (m: FormState)
    ensures Complete(m)
    ensures m.linkedin == raw.linkedin && m.certifications == raw.certifications
    ensures |m.experience| == |raw.experience| && |m.education| == |raw.education|
  {
    raw.(
      fullName := Or(raw.fullName, DEFAULT_FULL_NAME),
      title := Or(raw.title, DEFAULT_TITLE),
      email := Or(raw.email, DEFAULT_EMAIL),
      phone := Or(raw.phone, DEFAULT_PHONE),
      location := Or(raw.location, DEFAULT_LOCATION),
      summary := Or(raw.summary, DEFAULT_SUMMARY),
      experience := FillExperiences(raw.experience),
      education := FillEducations(raw.education),
      skills := Or(raw.skills, DEFAULT_SKILLS))
  }

  /** Each scalar key follows the substitution table: the default exactly when empty and defaultable. */
  lemma BuildScalar(raw: FormState, f: Field)
    ensures Get(Build(raw), f) == if Get(raw, f) == "" && Placeholder(f).Some? then Placeholder(f).value else Get(raw, f)
  {
  }

  /**
   * Each output experience entry depends only on the matching input entry:
   * its own value when non-empty, the field's placeholder otherwise.
   */
  lemma BuildExperience(raw: FormState, i: nat, f: ExpField)
    requires i < |raw.experience|
    ensures |Build(raw).experience| == |raw.experience|
    ensures ExpGet(Build(raw).experience[i], f) == if ExpGet(raw.experience[i], f) == "" then ExpPlaceholder(f) else ExpGet(raw.experience[i], f)
  {
  }

  /** The education counterpart of BuildExperience. */
  lemma BuildEducation(raw: FormState, i: nat, f: EduField)
    requires i < |raw.education|
    ensures |Build(raw).education| == |raw.education|
    ensures EduGet(Build(raw).education[i], f) == if EduGet(raw.education[i], f) == "" then EduPlaceholder(f) else EduGet(raw.education[i], f)
  {
  }

  /** Filling a complete state changes nothing. */
  lemma {:induction false} BuildComplete(m: FormState)
    requires Complete(m)
    ensures Build(m) == m
  {
    var b := Build(m);
    forall i | 0 <= i < |m.experience|
      ensures b.experience[i] == m.experience[i]
    {
      FillExperienceFilled(m.experience[i]);
    }
    forall i | 0 <= i < |m.education|
      ensures b.education[i] == m.education[i]
    {
      FillEducationFilled(m.education[i]);
    }
    assert b.experience == m.experience;
    assert b.education == m.education;
    ScalarsFilled(m);
  }

  /** A filled entry is left as it is. */
  lemma FillExperienceFilled(e: Experience)
    requires ExperienceFilled(e)
    ensures FillExperience(e) == e
  {
    assert ExpGet(e, Company) != "" && ExpGet(e, Position) != "";
    assert ExpGet(e, Duration) != "" && ExpGet(e, Description) != "";
  }

  /** A filled entry is left as it is. */
  lemma FillEducationFilled(e: Education)
    requires EducationFilled(e)
    ensures FillEducation(e) == e
  {
    assert EduGet(e, Institution) != "" && EduGet(e, Degree) != "";
    assert EduGet(e, Year) != "" && EduGet(e, Gpa) != "";
  }

  /** The defaultable keys of a complete state are all non-empty. */
  lemma ScalarsFilled(m: FormState)
    requires Complete(m)
    ensures m.fullName != "" && m.title != "" && m.email != "" && m.phone != ""
    ensures m.location != "" && m.summary != "" && m.skills != ""
  {
    assert Get(m, FullName) != "" && Get(m, Title) != "" && Get(m, Email) != "";
    assert Get(m, Phone) != "" && Get(m, Location) != "" && Get(m, Summary) != "" && Get(m, Skills) != "";
  }

  /** Building twice gives what building once gives. */
  lemma BuildIdempotent(raw: FormState)
    ensures Build(Build(raw)) == Build(raw)
  {
    BuildComplete(Build(raw));
  }

  /** Every education entry of a built state carries a GPA, whatever the user typed. */
  lemma BuildAlwaysHasGpa(raw: FormState, i: nat)
    requires i < |raw.education|
    ensures Build(raw).education[i].gpa != ""
    ensures raw.education[i].gpa == "" ==> Build(raw).education[i].gpa == DEFAULT_GPA
  {
    assert EducationFilled(Build(raw).education[i]);
    assert EduGet(Build(raw).education[i], Gpa) != "";
  }

  /** The preview of a fresh session shows the whole placeholder table. */
  lemma BuildInitial()
    ensures Build(Initial()) == FormState(
      DEFAULT_FULL_NAME, DEFAULT_TITLE, DEFAULT_EMAIL, DEFAULT_PHONE, DEFAULT_LOCATION, "", DEFAULT_SUMMARY,
      [Experience(DEFAULT_COMPANY, DEFAULT_POSITION, DEFAULT_DURATION, DEFAULT_DESCRIPTION)],
      [Education(DEFAULT_INSTITUTION, DEFAULT_DEGREE, DEFAULT_YEAR, DEFAULT_GPA)],
      DEFAULT_SKILLS, "")
  {
    var b := Build(Initial());
    assert b.experience == [FillExperience(EMPTY_EXPERIENCE)];
    assert b.education == [FillEducation(EMPTY_EDUCATION)];
  }
}
