# Resume generator — a verified model

This project is a Dafny model of the `ResumeGenerator` component of a
single-page resume builder, `main.js`. It covers the session state (the form
data and the uploaded photo) and the handlers that replace it. It also covers
the builder that fills empty fields with placeholders (`generateResume`), the
HTML page that the download handler writes (`handleDownload`) and the name
that page is saved under.

Modules:

- `Form` (form.dfy): the form state as values. It holds the scalar keys, the
  experience and education lists, the key enumerations with accessors, and
  the initial state.
- `Builder` (builder.dfy): `generateResume` as a function `Build`. The
  placeholder tables are copied from the source. JavaScript falsiness of a
  string means that only `""` counts as empty. A value of `" "` is kept.
- `Edits` (edits.dfy): `handleInputChange`, `addExperience`, `addEducation`,
  `removeExperience` and `removeEducation` as functions from one form state to
  the next.
- `Serializer` (serializer.dfy): the download template as a sequence of
  pieces. A piece is fixed markup, a section heading, or a hole with an
  interpolated value. Rendering concatenates the pieces, and each hole renders
  as its value verbatim. The function `Expected` gives, slot by slot, the
  values each interpolation shows, and `SerializeValues` proves that every
  slot of the page holds exactly those values.
- `Layout` (layout.dfy): the page's outline, that is its headings and holes
  in document order with the fixed markup dropped. `ExpectedOutline` writes
  the layout down without markup, and `SerializeOutline` proves the page has
  exactly that outline. This fixes the order of the slots, the entry block
  each value belongs to and the heading each value sits under.
- `FileName` (filename.dfy): `replace(/\s+/g, '_')` followed by
  `_Resume.html`. It uses the exact JavaScript `\s` character set.
- `Download` (download.dfy): facts about the page that a raw form state
  produces, combining the builder and the serializer.
- `Generator` (generator.dfy): the class `ResumeGenerator`. Its fields
  `formData` and `photo` are replaced by the handler methods. `GenerateResume`
  fills the keys one after the other, as the source does, and is proved equal
  to `Builder.Build`.

Two behaviours of the code are easy to miss:

- The GPA line of an education block is guarded by the GPA after defaulting.
  An empty GPA has already become `3.8/4.0` by then, so every education
  entry of the exported page has a GPA line (`Download.EveryEntryShowsGpa`).
- Interpolated values are not HTML-escaped. Markup typed into a field reaches
  the file unchanged (`Serializer.ValuesVerbatim`,
  `Download.TypedTextVerbatim`).

## Model

| member | source | states |
|---|---|---|
| Form.Initial | main.js:6-18 | a session starts with every scalar key empty and exactly one entry, all fields empty, in each list |
| Builder.Build | main.js:65-95 | the built state is complete: every defaultable key and every entry field is non-empty; LinkedIn and certifications pass through unchanged; both lists keep their length |
| Builder.BuildScalar | main.js:69-74 | each scalar key gets its placeholder exactly when it is empty and has one; otherwise it keeps its value, with no trimming |
| Builder.BuildExperience | main.js:77-82 | output job `i` depends only on input job `i`: each field keeps its value, or gets its placeholder when empty |
| Builder.BuildEducation | main.js:85-90 | output education entry `i` depends only on input entry `i`: each field keeps its value, or gets its placeholder when empty |
| Builder.FillExperienceFields | main.js:77-82 | each field of a filled job keeps its value, or takes its placeholder when empty |
| Builder.FillEducationFields | main.js:85-90 | each field of a filled education entry keeps its value, or takes its placeholder when empty |
| Builder.FillExperiences | main.js:77-82 | the list keeps its length and order, and entry `i` is entry `i` filled |
| Builder.FillEducations | main.js:85-90 | the list keeps its length and order, and entry `i` is entry `i` filled |
| Builder.BuildComplete | main.js:65-95 | filling a state that is already complete changes nothing |
| Builder.BuildIdempotent | main.js:65-95 | building twice gives the same state as building once |
| Builder.BuildAlwaysHasGpa | main.js:89 | every built education entry has a non-empty GPA; an empty one becomes `3.8/4.0` |
| Builder.BuildInitial | main.js:6-18 | the preview of a fresh session is the whole placeholder table, with empty LinkedIn and certifications |
| Edits.SetField | main.js:37 | the key edited holds the new value; every other key and both lists are unchanged |
| Edits.SetExp | main.js:34 | the field edited holds the new value; the entry's other fields are unchanged |
| Edits.SetEdu | main.js:34 | the field edited holds the new value; the entry's other fields are unchanged |
| Edits.HandleInputChange | main.js:31-39 | a scalar edit changes only its key; an entry edit changes only that field of the entry at the index, and leaves every other entry, the other list and all scalars unchanged |
| Edits.AddExperience | main.js:41-46 | the experience list grows by one all-empty entry at the end; earlier entries and everything else are unchanged |
| Edits.AddEducation | main.js:48-53 | the education list grows by one all-empty entry at the end; earlier entries and everything else are unchanged |
| Edits.DropIndex | main.js:56 | `filter((_, i) => i !== index)` drops exactly the element at an in-range index and keeps the rest in order; an index out of range keeps every element |
| Edits.RemoveExperience | main.js:55-58 | an in-range index removes exactly that entry: the list is one shorter, and the entries before and after it keep their order; an index out of range changes nothing; nothing else changes |
| Edits.RemoveEducation | main.js:60-63 | the same for the education list |
| Edits.RemoveUndoesAddExperience | main.js:41-58 | removing the entry just added restores the previous state |
| Edits.RemoveUndoesAddEducation | main.js:48-63 | removing the entry just added restores the previous state |
| Edits.BuildAfterAddExperience | main.js:41-46 | after an add, the preview has one more all-placeholder job and nothing else in it changes |
| Edits.BuildAfterAddEducation | main.js:48-53 | after an add, the preview has one more all-placeholder education entry and nothing else in it changes |
| Edits.BuildAfterRemoveExperience | main.js:55-58 | removing then building gives the same state as building then removing |
| Edits.BuildAfterRemoveEducation | main.js:60-63 | removing then building gives the same state as building then removing |
| Edits.BuildAfterSetField | main.js:37 | the preview shows the typed value of a key, or its placeholder when the value typed is empty |
| Serializer.RenderAt | main.js:104-192 | every piece of the page appears in the rendered text between the pieces before and after it; a hole renders as its value |
| Serializer.ValuesVerbatim | main.js:104-192 | every interpolated value occurs in the rendered text unchanged, so nothing is escaped |
| Serializer.JobBlockValues | main.js:149-160 | one job block shows the entry's position, company, duration and description once each, and no heading |
| Serializer.EduBlockValues | main.js:165-176 | one education block shows the entry's degree, institution and year once each, and its GPA only when that GPA is non-empty |
| Serializer.JobsValues | main.js:149-160 | the experience blocks show each field once per entry, in list order, and nothing else |
| Serializer.SchoolsValues | main.js:165-176 | the education blocks show degree, institution and year once per entry in list order, and a GPA only where it is non-empty |
| Serializer.HeaderValues | main.js:129-140 | the header shows the portrait once when a photo is set, each name and contact key once, the LinkedIn value once when it is non-empty, and no section heading |
| Serializer.SectionsValues | main.js:142-189 | the sections show the summary and the skills once, each job and education field once per entry in list order, and the certifications only when non-empty |
| Serializer.SectionsHeadings | main.js:142-189 | the section headings are PROFESSIONAL SUMMARY, PROFESSIONAL EXPERIENCE, EDUCATION and SKILLS, followed by CERTIFICATIONS only when certifications are non-empty |
| Serializer.SerializeEnds | main.js:104-192 | the page's first piece opens the document and its last piece closes it |
| Serializer.Html | main.js:104-192 | the exported text begins with the doctype and the head, and ends by closing the body and the document |
| Serializer.RenderEnds | main.js:104-192 | a rendered page begins with the text of its first piece and ends with the text of its last |
| Serializer.SerializeValues | main.js:104-192 | slot by slot, the page holds exactly the values of the reference layout, in order: the name in the title, the photo if set, each key once (LinkedIn and certifications only if non-empty), and one job or education block per entry |
| Serializer.SectionOrder | main.js:142-189 | the page's headings are PROFESSIONAL SUMMARY, PROFESSIONAL EXPERIENCE, EDUCATION and SKILLS, followed by CERTIFICATIONS only when certifications are non-empty |
| Serializer.GpaColumnFilled | main.js:174 | when every entry has a GPA, there is one GPA line per entry, in list order |
| Serializer.GpaLinesFilled | main.js:174 | when every entry of a state has a GPA, the page shows one GPA line per entry, in list order |
| Serializer.PhotoShown | main.js:130 | the portrait appears exactly when a non-empty photo is set, once, with the data URL itself as its source |
| Serializer.LinkedInShown | main.js:137 | the LinkedIn paragraph appears exactly when the LinkedIn value is non-empty |
| Serializer.CertificationsShown | main.js:184-189 | the certifications text and its heading appear exactly when the certifications are non-empty |
| Layout.ValuesOutline | main.js:104-192 | the outline keeps, slot by slot, every interpolated value in order |
| Layout.HeadingsOutline | main.js:142-189 | the outline keeps every section heading in order |
| Layout.PreambleOutline | main.js:105-109 | the document head interpolates only the full name, in the title |
| Layout.PhotoImageOutline | main.js:130 | the portrait's source appears exactly when a photo is set |
| Layout.IdentityOutline | main.js:131-136 | the name, title, e-mail, phone and location appear in that order |
| Layout.LinkedInLineOutline | main.js:137 | the LinkedIn value appears exactly when it is non-empty |
| Layout.HeaderOutline | main.js:129-140 | the header shows the optional portrait, then the name, title, e-mail, phone and location, then the optional LinkedIn value |
| Layout.JobBlockOutline | main.js:150-159 | a job block shows its entry's position, company, duration and description, in that order |
| Layout.JobsOutline | main.js:149-160 | the job blocks follow the list: block `i` holds exactly entry `i`'s four values |
| Layout.GpaLineOutline | main.js:174 | the GPA line shows the GPA exactly when the GPA it is given is non-empty |
| Layout.EduBlockOutline | main.js:166-175 | an education block shows degree, institution and year, in that order, then the GPA when it is non-empty |
| Layout.SchoolsOutline | main.js:165-176 | the education blocks follow the list: block `i` holds exactly entry `i`'s values |
| Layout.SectionOutline | main.js:142-189 | a section's heading is directly followed by the section's content |
| Layout.CertificationsOutline | main.js:184-189 | the CERTIFICATIONS heading and text appear exactly when the certifications are non-empty |
| Layout.SectionsOutline | main.js:142-189 | each section heading is directly followed by its own content: summary, one block per job, one block per education entry, skills, then the optional certifications |
| Layout.SerializeOutline | main.js:104-192 | the page's headings and values, in document order, are exactly the expected outline: the name in the title, the header in its order, then every section with its content under its own heading |
| Download.EveryEntryShowsGpa | main.js:89 | the exported page has one GPA line per education entry, holding the typed GPA or `3.8/4.0` |
| Download.ExportedJob | main.js:77-82 | job block `i` of the exported page shows entry `i`'s own values, or placeholders for the empty ones |
| Download.ExportedSchool | main.js:85-90 | education block `i` of the exported page shows entry `i`'s own degree, institution and year, or placeholders for the empty ones |
| Download.ExportedScalar | main.js:69-74 | each defaultable key is shown once, as typed or as its placeholder; LinkedIn and certifications are shown only when typed |
| Download.TypedTextVerbatim | main.js:130-187 | any non-empty typed key reaches the exported file unchanged |
| Download.DownloadNameOfForm | main.js:198 | a non-empty full name without whitespace is saved as `<name>_Resume.html`; an empty one gets the placeholder's file name |
| Download.PartialFormPreview | main.js:65-95 | in a form with only a name, an e-mail and a company, the empty title and position get their placeholders and the typed company is kept |
| FileName.SkipSpacesSuffix | main.js:198 | the characters dropped are all whitespace, and what is left is a suffix that does not start with whitespace |
| FileName.DownloadName | main.js:198 | the file name contains no whitespace and ends with `_Resume.html` |
| FileName.Collapse | main.js:198 | after `replace(/\s+/g, '_')` the name contains no whitespace and is no longer than before |
| FileName.CollapseIdentity | main.js:198 | a name without whitespace is left unchanged |
| FileName.DownloadNameNoSpace | main.js:198 | a name without whitespace is saved as the name followed by `_Resume.html` |
| FileName.CollapseAppend | main.js:198 | a text ending in a non-space character is replaced independently of what follows it |
| FileName.CollapseBetween | main.js:198 | each maximal whitespace run between two texts becomes exactly one underscore |
| Generator.ResumeGenerator.constructor | main.js:5-18 | a new session has the initial form data and no photo |
| Generator.ResumeGenerator.SetPhoto | main.js:24-26 | a finished upload replaces the photo with the data URL that was read, and the form data is unchanged |
| Generator.ResumeGenerator.HandleInputChange | main.js:31-39 | the form data becomes the result of the edit, the photo is unchanged, and each list keeps at least one entry |
| Generator.ResumeGenerator.AddExperience | main.js:41-46 | the form data becomes the state with one empty job appended |
| Generator.ResumeGenerator.AddEducation | main.js:48-53 | the form data becomes the state with one empty education entry appended |
| Generator.ResumeGenerator.RemoveExperience | main.js:55-58 | on a list with more than one entry, the form data loses the entry at the index, and at least one entry remains |
| Generator.ResumeGenerator.RemoveEducation | main.js:60-63 | on a list with more than one entry, the form data loses the entry at the index, and at least one entry remains |
| Generator.ResumeGenerator.GenerateResume | main.js:65-95 | filling the keys one after the other on a copy gives the built state, and the form data is not changed |
| Generator.ResumeGenerator.FillIfEmpty | main.js:69-74 | `if (!x) x = placeholder` on one key: the value is kept unless it is the empty string, the only falsy string |
| Generator.ResumeGenerator.HandleDownload | main.js:101-198 | the page is the serialization of the built state and the photo; the file name is derived from the built full name and contains no whitespace |

## Left out

- The on-screen form and the live preview (the JSX markup) are not modelled. Only the two guards the form relies on appear: an edit names an entry that is on screen, and Remove is offered only on lists with more than one entry.
- Reading the uploaded file (`FileReader`) is left out because it is browser I/O. `SetPhoto` takes the data URL that was read.
- Creating the Blob and the object URL, clicking the link, and printing are left out because they are browser I/O. `HandleDownload` returns the text and the file name.
- The stylesheet rules are not modelled. The page carries a fixed placeholder stylesheet (`Serializer.STYLESHEET`).
- The whitespace and indentation of the template literal are not modelled. The fixed markup is kept, without the layout whitespace.
- Edits.HandleInputChange: in the source, an entry edit mutates the entry object that the old state shares with the new one (`newData[index][field] = ...` on a shallow copy). The model produces a fresh entry and does not capture that aliasing.
- Edits.HandleInputChange: requires the index to be in range. The source would throw on an entry that does not exist, and the form never sends one.
- Generator.ResumeGenerator.RemoveExperience: requires more than one entry, because the Remove button is shown only then. `Edits.RemoveExperience` itself is total.
- Generator.ResumeGenerator.RemoveEducation: requires more than one entry, for the same reason.
- React state batching and re-rendering are not modelled. Each handler replaces the state at once.
- The icon components are not modelled because they are display only.
