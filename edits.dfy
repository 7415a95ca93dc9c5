/**
 * The form's edit handlers: a scalar edit, an edit of one field of one
 * entry, appending an empty entry and removing the entry at an index.  Each
 * handler produces the next form state from the current one.
 */
module Edits {
  import opened Form
  import Builder

  /** The target of `handleInputChange`: a scalar key, or a key of the entry at an index. */
  datatype Target =
    | Scalar(field: Field)
    | ExperienceAt(index: nat, expField: ExpField)
    | EducationAt(index: nat, eduField: EduField)

  /** The UI only ever names an entry that is on screen, so the index is in range. */
  predicate OnScreen(form: FormState, t: Target) {
    match t
    case Scalar(_) => true
    case ExperienceAt(i, _) => i < |form.experience|
    case EducationAt(i, _) => i < |form.education|
  }

  /** `{ ...formData, [section]: value }` for a scalar key. */
  function SetField(form: FormState, f: Field, v: string): (r: FormState)
    ensures Get(r, f) == v
    ensures forall g :: g != f ==> Get(r, g) == Get(form, g)
    ensures r.experience == form.experience && r.education == form.education
  {
    match f
    case FullName => form.(fullName := v)
    case Title => form.(title := v)
    case Email => form.(email := v)
    case Phone => form.(phone := v)
    case Location => form.(location := v)
    case LinkedIn => form.(linkedin := v)
    case Summary => form.(summary := v)
    case Skills => form.(skills := v)
    case Certifications => form.(certifications := v)
  }

  function SetExp(e: Experience, f: ExpField, v: string): (r: Experience)
    ensures ExpGet(r, f) == v
    ensures forall g :: g != f ==> ExpGet(r, g) == ExpGet(e, g)
  {
    match f
    case Company => e.(company := v)
    case Position => e.(position := v)
    case Duration => e.(duration := v)
    case Description => e.(description := v)
  }

  function SetEdu(e: Education, f: EduField, v: string): (r: Education)
    ensures EduGet(r, f) == v
    ensures forall g :: g != f ==> EduGet(r, g) == EduGet(e, g)
  {
    match f
    case Institution => e.(institution := v)
    case Degree => e.(degree := v)
    case Year => e.(year := v)
    case Gpa => e.(gpa := v)
  }

  /**
   * `handleInputChange`: an entry edit sets one field of the entry at the
   * index, a scalar edit sets one key; nothing else changes.
   */
  function HandleInputChange(form: FormState, t: Target, v: string): (r: FormState)
    requires OnScreen(form, t)
    ensures |r.experience| == |form.experience| && |r.education| == |form.education|
    ensures t.Scalar? ==> Get(r, t.field) == v && forall g :: g != t.field ==> Get(r, g) == Get(form, g)
    ensures t.Scalar? ==> r.experience == form.experience && r.education == form.education
    ensures !t.Scalar? ==> forall g :: Get(r, g) == Get(form, g)
    ensures t.ExperienceAt? ==> r.education == form.education
    ensures t.ExperienceAt? ==> ExpGet(r.experience[t.index], t.expField) == v
    ensures t.ExperienceAt? ==> forall g :: g != t.expField ==> ExpGet(r.experience[t.index], g) == ExpGet(form.experience[t.index], g)
    ensures t.ExperienceAt? ==> forall j :: 0 <= j < |form.experience| && j != t.index ==> r.experience[j] == form.experience[j]
    ensures t.EducationAt? ==> r.experience == form.experience
    ensures t.EducationAt? ==> EduGet(r.education[t.index], t.eduField) == v
    ensures t.EducationAt? ==> forall g :: g != t.eduField ==> EduGet(r.education[t.index], g) == EduGet(form.education[t.index], g)
    ensures t.EducationAt? ==> forall j :: 0 <= j < |form.education| && j != t.index ==> r.education[j] == form.education[j]
  {
    match t
    case Scalar(f) => SetField(form, f, v)
    case ExperienceAt(i, f) =>
      form.(experience := form.experience[i := SetExp(form.experience[i], f, v)])
    case EducationAt(i, f) =>
      form.(education := form.education[i := SetEdu(form.education[i], f, v)])
  }

  /** `addExperience`: one empty entry at the end, earlier entries and everything else kept. */
  function AddExperience(form: FormState): (r: FormState)
    ensures |r.experience| == |form.experience| + 1
    ensures r.experience[..|form.experience|] == form.experience
    ensures forall f :: ExpGet(r.experience[|form.experience|], f) == ""
    ensures r.(experience := form.experience) == form
  {
    form.(experience := form.experience + [EMPTY_EXPERIENCE])
  }

  /** `addEducation`: one empty entry at the end, earlier entries and everything else kept. */
  function AddEducation(form: FormState): (r: FormState)
    ensures |r.education| == |form.education| + 1
    ensures r.education[..|form.education|] == form.education
    ensures forall f :: EduGet(r.education[|form.education|], f) == ""
    ensures r.(education := form.education) == form
  {
    form.(education := form.education + [EMPTY_EDUCATION])
  }

  /**
   * `xs.filter((_, i) => i !== index)`: every element is kept except the one
   * at `index`; an index past the end keeps them all.
   */
  function DropIndex<T>(xs: seq<T>, index: int): (r: seq<T>)
    ensures 0 <= index < |xs| ==> r == xs[..index] + xs[index + 1..]
    ensures !(0 <= index < |xs|) ==> r == xs
  {
    if xs == [] then []
    else (if index == 0 then [] else [xs[0]]) + DropIndex(xs[1..], index - 1)
  }

  /** `removeExperience`: the entry at `index` is dropped, the others keep their order. */
  function RemoveExperience(form: FormState, index: nat): (r: FormState)
    ensures index < |form.experience| ==> |r.experience| == |form.experience| - 1
    ensures index < |form.experience| ==> forall j :: 0 <= j < index ==> r.experience[j] == form.experience[j]
    ensures index < |form.experience| ==> forall j :: index <= j < |r.experience| ==> r.experience[j] == form.experience[j + 1]
    ensures index >= |form.experience| ==> r == form
    ensures r.(experience := form.experience) == form
  {
    form.(experience := DropIndex(form.experience, index))
  }

  /** `removeEducation`: the entry at `index` is dropped, the others keep their order. */
  function RemoveEducation(form: FormState, index: nat): (r: FormState)
    ensures index < |form.education| ==> |r.education| == |form.education| - 1
    ensures index < |form.education| ==> forall j :: 0 <= j < index ==> r.education[j] == form.education[j]
    ensures index < |form.education| ==> forall j :: index <= j < |r.education| ==> r.education[j] == form.education[j + 1]
    ensures index >= |form.education| ==> r == form
    ensures r.(education := form.education) == form
  {
    form.(education := DropIndex(form.education, index))
  }

  /** Removing the entry just added gives back the state before the add. */
  lemma RemoveUndoesAddExperience(form: FormState)
    ensures RemoveExperience(AddExperience(form), |form.experience|) == form
  {
    var a := AddExperience(form);
    assert a.experience[..|form.experience|] == form.experience;
  }

  /** Removing the entry just added gives back the state before the add. */
  lemma RemoveUndoesAddEducation(form: FormState)
    ensures RemoveEducation(AddEducation(form), |form.education|) == form
  {
    var a := AddEducation(form);
    assert a.education[..|form.education|] == form.education;
  }

  /** Adding an entry adds one all-placeholder job to the preview and changes nothing else in it. */
  lemma BuildAfterAddExperience(form: FormState)
    ensures Builder.Build(AddExperience(form)).experience
         == Builder.Build(form).experience + [Builder.FillExperience(EMPTY_EXPERIENCE)]
    ensures Builder.Build(AddExperience(form)).(experience := Builder.Build(form).experience) == Builder.Build(form)
  {
  }

  /** Adding an entry adds one all-placeholder school to the preview and changes nothing else in it. */
  lemma BuildAfterAddEducation(form: FormState)
    ensures Builder.Build(AddEducation(form)).education
         == Builder.Build(form).education + [Builder.FillEducation(EMPTY_EDUCATION)]
    ensures Builder.Build(AddEducation(form)).(education := Builder.Build(form).education) == Builder.Build(form)
  {
  }

  /** Removing an entry and then building is the same as building and then removing. */
  lemma BuildAfterRemoveExperience(form: FormState, index: nat)
    ensures Builder.Build(RemoveExperience(form, index)) == RemoveExperience(Builder.Build(form), index)
  {
    var l := Builder.Build(RemoveExperience(form, index));
    var r := RemoveExperience(Builder.Build(form), index);
    assert |l.experience| == |r.experience|;
    forall j | 0 <= j < |l.experience|
      ensures l.experience[j] == r.experience[j]
    {
    }
  }

  /** Removing an entry and then building is the same as building and then removing. */
  lemma BuildAfterRemoveEducation(form: FormState, index: nat)
    ensures Builder.Build(RemoveEducation(form, index)) == RemoveEducation(Builder.Build(form), index)
  {
    var l := Builder.Build(RemoveEducation(form, index));
    var r := RemoveEducation(Builder.Build(form), index);
    assert |l.education| == |r.education|;
    forall j | 0 <= j < |l.education|
      ensures l.education[j] == r.education[j]
    {
    }
  }

  /** What the user types into a defaultable key is what the preview shows, unless it is empty. */
  lemma BuildAfterSetField(form: FormState, f: Field, v: string)
    ensures Get(Builder.Build(SetField(form, f, v)), f)
         == if v == "" && Builder.Placeholder(f).Some? then Builder.Placeholder(f).value else v
  {
    Builder.BuildScalar(SetField(form, f, v), f);
  }
}
