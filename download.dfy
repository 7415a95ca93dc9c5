/**
 * What the downloaded page shows for a form state: the serializer applied to
 * the builder's output, as the download handler does.
 */
module Download {
  import opened Form
  import Builder
  import Serializer
  import FileName

  /** The page exported for a form state and a photo. */
  function Page(raw: FormState, photo: Option<string>): seq<Serializer.Piece> {
    Serializer.Serialize(Builder.Build(raw), photo)
  }

  /**
   * The guard on the GPA line tests the filled GPA, so the exported page
   * has a GPA line for every education entry, the placeholder where the
   * user typed none.
   */
  lemma EveryEntryShowsGpa(raw: FormState, photo: Option<string>)
    ensures |Serializer.Values(Page(raw, photo), Serializer.School(Gpa))| == |raw.education|
    ensures forall i :: 0 <= i < |raw.education| ==>
      Serializer.Values(Page(raw, photo), Serializer.School(Gpa))[i]
        == if raw.education[i].gpa == "" then Builder.DEFAULT_GPA else raw.education[i].gpa
  {
    var m := Builder.Build(raw);
    forall i | 0 <= i < |m.education|
      ensures m.education[i].gpa != ""
    {
      Builder.BuildAlwaysHasGpa(raw, i);
    }
    Serializer.GpaLinesFilled(m, photo);
    var lines := Serializer.EduColumn(m.education, Gpa);
    forall i | 0 <= i < |raw.education|
      ensures lines[i] == if raw.education[i].gpa == "" then Builder.DEFAULT_GPA else raw.education[i].gpa
    {
      Builder.BuildEducation(raw, i, Gpa);
    }
  }

  /**
   * The `i`-th job block of the exported page shows the `i`-th entry's own
   * value, or the placeholder when that value is empty.
   */
  lemma ExportedJob(raw: FormState, photo: Option<string>, i: nat, f: ExpField)
    requires i < |raw.experience|
    ensures |Serializer.Values(Page(raw, photo), Serializer.Job(f))| == |raw.experience|
    ensures Serializer.Values(Page(raw, photo), Serializer.Job(f))[i]
         == if ExpGet(raw.experience[i], f) == "" then Builder.ExpPlaceholder(f) else ExpGet(raw.experience[i], f)
  {
    var m := Builder.Build(raw);
    Serializer.SerializeValues(m, photo, Serializer.Job(f));
    assert Serializer.Expected(m, photo, Serializer.Job(f)) == Serializer.ExpColumn(m.experience, f);
    Builder.BuildExperience(raw, i, f);
  }

  /**
   * The `i`-th education block of the exported page shows the `i`-th entry's
   * own degree, institution and year, or the placeholder when empty.
   */
  lemma ExportedSchool(raw: FormState, photo: Option<string>, i: nat, f: EduField)
    requires i < |raw.education| && f != Gpa
    ensures |Serializer.Values(Page(raw, photo), Serializer.School(f))| == |raw.education|
    ensures Serializer.Values(Page(raw, photo), Serializer.School(f))[i]
         == if EduGet(raw.education[i], f) == "" then Builder.EduPlaceholder(f) else EduGet(raw.education[i], f)
  {
    var m := Builder.Build(raw);
    Serializer.SerializeValues(m, photo, Serializer.School(f));
    assert Serializer.Expected(m, photo, Serializer.School(f)) == Serializer.EduColumn(m.education, f);
    Builder.BuildEducation(raw, i, f);
  }

  /**
   * Each defaultable key is shown once, as typed or as its placeholder; the
   * LinkedIn line and the certifications only when the user typed them.
   */
  lemma ExportedScalar(raw: FormState, photo: Option<string>, f: Field)
    ensures Serializer.Values(Page(raw, photo), Serializer.Scalar(f))
         == if Get(raw, f) != "" then [Get(raw, f)]
            else if Builder.Placeholder(f).Some? then [Builder.Placeholder(f).value]
            else []
  {
    Builder.BuildScalar(raw, f);
    Serializer.SerializeValues(Builder.Build(raw), photo, Serializer.Scalar(f));
  }

  /**
   * Whatever the user types into a key that is shown reaches the exported
   * file unchanged: nothing is escaped, so markup in a value stays markup.
   */
  lemma TypedTextVerbatim(raw: FormState, photo: Option<string>, f: Field)
    requires Get(raw, f) != ""
    ensures Serializer.Occurs(Get(raw, f), Serializer.Html(Builder.Build(raw), photo))
  {
    ExportedScalar(raw, photo, f);
    Serializer.ValuesVerbatim(Page(raw, photo), Serializer.Scalar(f), 0);
  }

  /** A full name without whitespace is saved as `<name>_Resume.html`; an empty one under the placeholder. */
  lemma DownloadNameOfForm(raw: FormState)
    ensures raw.fullName != "" && FileName.NoSpace(raw.fullName)
        ==> FileName.DownloadName(Builder.Build(raw).fullName) == raw.fullName + "_Resume.html"
    ensures raw.fullName == ""
        ==> FileName.DownloadName(Builder.Build(raw).fullName) == FileName.DownloadName(Builder.DEFAULT_FULL_NAME)
  {
    Builder.BuildScalar(raw, FullName);
    if raw.fullName != "" && FileName.NoSpace(raw.fullName) {
      FileName.DownloadNameNoSpace(raw.fullName);
    }
  }

  /** A form with only a name, an e-mail and one company filled in. */
  function PartialRaw(): FormState {
    FormState("Jane Doe", "", "jane@x.com", "", "", "", "", [Experience("Acme", "", "", "")], [EMPTY_EDUCATION], "", "")
  }

  /** In the preview of the partial form, the title and the position get their placeholders and the company is kept. */
  lemma PartialFormPreview()
    ensures Builder.Build(PartialRaw()).title == Builder.DEFAULT_TITLE
    ensures Builder.Build(PartialRaw()).experience[0].company == "Acme"
    ensures Builder.Build(PartialRaw()).experience[0].position == Builder.DEFAULT_POSITION
  {
    Builder.BuildScalar(PartialRaw(), Title);
    Builder.BuildExperience(PartialRaw(), 0, Company);
    Builder.BuildExperience(PartialRaw(), 0, Position);
  }
}
