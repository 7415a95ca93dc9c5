/**
 * The form state of the resume generator: the record the edit handlers
 * change and the resume builder reads.  Every field is a string that may be
 * empty; the two repeatable sections are ordered lists of entries.
 */
module Form {

  datatype Option<+T> = None | Some(value: T)

  /** One employment entry of the form. */
  datatype Experience = Experience(company: string, position: string, duration: string, description: string)

  /** One education entry of the form. */
  datatype Education = Education(institution: string, degree: string, year: string, gpa: string)

  datatype FormState = FormState(
    fullName: string,
    title: string,
    email: string,
    phone: string,
    location: string,
    linkedin: string,
    summary: string,
    experience: seq<Experience>,
    education: seq<Education>,
    skills: string,
    certifications: string)

  /** The scalar keys of the form state (the `section` argument of a scalar edit). */
  datatype Field = FullName | Title | Email | Phone | Location | LinkedIn | Summary | Skills | Certifications

  /** The keys of an experience entry. */
  datatype ExpField = Company | Position | Duration | Description

  /** The keys of an education entry. */
  datatype EduField = Institution | Degree | Year | Gpa

  /** The value stored under a scalar key. */
  function Get(form: FormState, f: Field): string {
    match f
    case FullName => form.fullName
    case Title => form.title
    case Email => form.email
    case Phone => form.phone
    case Location => form.location
    case LinkedIn => form.linkedin
    case Summary => form.summary
    case Skills => form.skills
    case Certifications => form.certifications
  }

  function ExpGet(e: Experience, f: ExpField): string {
    match f
    case Company => e.company
    case Position => e.position
    case Duration => e.duration
    case Description => e.description
  }

  function EduGet(e: Education, f: EduField): string {
    match f
    case Institution => e.institution
    case Degree => e.degree
    case Year => e.year
    case Gpa => e.gpa
  }

  /** The entry that "+ Add" appends to the experience list: every field empty. */
  const EMPTY_EXPERIENCE := Experience("", "", "", "")

  /** The entry that "+ Add" appends to the education list: every field empty. */
  const EMPTY_EDUCATION := Education("", "", "", "")

  /** The state a session starts from: all strings empty, one empty entry in each list. */
  function Initial(): (form: FormState)
    ensures forall f :: Get(form, f) == ""
    ensures form.experience == [EMPTY_EXPERIENCE] && forall f :: ExpGet(form.experience[0], f) == ""
    ensures form.education == [EMPTY_EDUCATION] && forall f :: EduGet(form.education[0], f) == ""
  {
    FormState("", "", "", "", "", "", "", [EMPTY_EXPERIENCE], [EMPTY_EDUCATION], "", "")
  }
}
