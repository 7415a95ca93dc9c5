/**
 * The resume generator component: the session state (the form data and the
 * photo) and the handlers that replace it, the builder that fills the
 * defaults in, and the download handler that produces the exported page and
 * its file name.
 */
module Generator {
  import opened Form
  import Builder
  import Edits
  import Serializer
  import FileName

  class ResumeGenerator {
    var photo: Option<string>
    var formData: FormState

    /** Each list keeps at least one entry: the Remove button is only shown on longer lists. */
    ghost predicate Valid()
      reads this
    {
      |formData.experience| >= 1 && |formData.education| >= 1
    }

    /** A new session: an empty form with one entry in each list, no photo. */
    constructor ()
      ensures Valid()
      ensures formData == Initial() && photo == None
    {
      photo := None;
      formData := Initial();
    }

    /** The end of a photo upload: the data URL that was read replaces the photo. */
    method SetPhoto(dataUrl: string)
      requires Valid()
      modifies this
      ensures Valid()
      ensures photo == Some(dataUrl) && formData == old(formData)
    {
      photo := Some(dataUrl);
    }

    /** `handleInputChange`: one key, or one key of one entry, takes the typed value. */
    method HandleInputChange(t: Edits.Target, value: string)
      requires Valid() && Edits.OnScreen(formData, t)
      modifies this
      ensures Valid()
      ensures formData == Edits.HandleInputChange(old(formData), t, value) && photo == old(photo)
    {
      match t {
        case Scalar(f) =>
          formData := Edits.SetField(formData, f, value);
        case ExperienceAt(i, f) =>
          var newData := formData.experience;
          newData := newData[i := Edits.SetExp(newData[i], f, value)];
          formData := formData.(experience := newData);
        case EducationAt(i, f) =>
          var newData := formData.education;
          newData := newData[i := Edits.SetEdu(newData[i], f, value)];
          formData := formData.(education := newData);
      }
    }

    method AddExperience()
      requires Valid()
      modifies this
      ensures Valid()
      ensures formData == Edits.AddExperience(old(formData)) && photo == old(photo)
    {
      formData := formData.(experience := formData.experience + [EMPTY_EXPERIENCE]);
    }

    method AddEducation()
      requires Valid()
      modifies this
      ensures Valid()
      ensures formData == Edits.AddEducation(old(formData)) && photo == old(photo)
    {
      formData := formData.(education := formData.education + [EMPTY_EDUCATION]);
    }

    method RemoveExperience(index: nat)
      requires Valid() && |formData.experience| > 1
      modifies this
      ensures Valid()
      ensures formData == Edits.RemoveExperience(old(formData), index) && photo == old(photo)
    {
      formData := Edits.RemoveExperience(formData, index);
    }

    method RemoveEducation(index: nat)
      requires Valid() && |formData.education| > 1
      modifies this
      ensures Valid()
      ensures formData == Edits.RemoveEducation(old(formData), index) && photo == old(photo)
    {
      formData := Edits.RemoveEducation(formData, index);
    }

    /**
     * `generateResume`: a copy of the form data whose empty keys are filled
     * one after the other, and whose lists are replaced by filled copies.
     * The form data itself is not changed.
     */
    method GenerateResume() returns (processed: FormState)
      ensures processed == Builder.Build(formData)
    {
      processed := formData;
      var v := FillIfEmpty(processed.fullName, Builder.DEFAULT_FULL_NAME);
      processed := processed.(fullName := v);
      v := FillIfEmpty(processed.title, Builder.DEFAULT_TITLE);
      processed := processed.(title := v);
      v := FillIfEmpty(processed.email, Builder.DEFAULT_EMAIL);
      processed := processed.(email := v);
      v := FillIfEmpty(processed.phone, Builder.DEFAULT_PHONE);
      processed := processed.(phone := v);
      v := FillIfEmpty(processed.location, Builder.DEFAULT_LOCATION);
      processed := processed.(location := v);
      v := FillIfEmpty(processed.summary, Builder.DEFAULT_SUMMARY);
      processed := processed.(summary := v);
      processed := processed.(experience := Builder.FillExperiences(processed.experience));
      processed := processed.(education := Builder.FillEducations(processed.education));
      v := FillIfEmpty(processed.skills, Builder.DEFAULT_SKILLS);
      processed := processed.(skills := v);
    }

    /** `if (!value) value = placeholder` on one key: a falsy string is only the empty one. */
    static method FillIfEmpty(value: string, placeholder: string) returns (r: string)
      ensures r == Builder.Or(value, placeholder)
    {
      r := value;
      if r == "" {
        r := placeholder;
      }
    }

    /**
     * `handleDownload`: the exported page of the filled form data and the
     * photo, and the name the file is saved under.
     */
    method HandleDownload() returns (html: string, fileName: string)
      ensures html == Serializer.Html(Builder.Build(formData), photo)
      ensures fileName == FileName.DownloadName(Builder.Build(formData).fullName)
      ensures FileName.NoSpace(fileName)
    {
      var resumeData := GenerateResume();
      html := Serializer.Html(resumeData, photo);
      fileName := FileName.DownloadName(resumeData.fullName);
    }
  }
}
