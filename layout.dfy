/**
 * The layout of the exported page as one sequence: every section heading and
 * every interpolated value, in document order, with the fixed markup left
 * out.  Where the per-slot projections of the serializer say which values a
 * slot holds, the outline also says in which order the slots come, which
 * entry block a value belongs to and under which heading it sits.
 */
module Layout {
  import opened Form
  import opened Serializer

  /** The headings and holes of `ps`, in order; the fixed markup is dropped. */
  function Outline(ps: seq<Piece>): (r: seq<Piece>)
    ensures |r| <= |ps|
    ensures forall i :: 0 <= i < |r| ==> !r[i].Lit?
  {
    if ps == [] then [] else (if ps[0].Lit? then [] else [ps[0]]) + Outline(ps[1..])
  }

  // ---------------------------------------------------------------------------
  // The expected outline, written without the template's markup

  /** One job block: position, company, duration and description, in that order. */
  function JobEntry(e: Experience): seq<Piece> {
    [Hole(Job(Position), e.position), Hole(Job(Company), e.company),
     Hole(Job(Duration), e.duration), Hole(Job(Description), e.description)]
  }

  /** One education block: degree, institution and year, then the GPA when it is non-empty. */
  function EduEntry(e: Education): seq<Piece> {
    [Hole(School(Degree), e.degree), Hole(School(Institution), e.institution), Hole(School(Year), e.year)]
    + (if e.gpa != "" then [Hole(School(Gpa), e.gpa)] else [])
  }

  /** The job blocks of the entries, one after the other in list order. */
  function JobEntries(exps: seq<Experience>): seq<Piece> {
    if exps == [] then [] else JobEntry(exps[0]) + JobEntries(exps[1..])
  }

  /** The education blocks of the entries, one after the other in list order. */
  function EduEntries(edus: seq<Education>): seq<Piece> {
    if edus == [] then [] else EduEntry(edus[0]) + EduEntries(edus[1..])
  }

  /**
   * The header: the portrait when a photo is set, the name, the title, the
   * e-mail, the phone and the location, then LinkedIn when it is non-empty.
   */
  function ExpectedHeader(m: FormState, photo: Option<string>): seq<Piece> {
    (if HasPhoto(photo) then [Hole(PhotoSrc, photo.value)] else [])
    + [Hole(Scalar(FullName), m.fullName), Hole(Scalar(Title), m.title),
       Hole(Scalar(Email), m.email), Hole(Scalar(Phone), m.phone), Hole(Scalar(Location), m.location)]
    + (if m.linkedin != "" then [Hole(Scalar(LinkedIn), m.linkedin)] else [])
  }

  /**
   * The sections: each heading directly followed by what is shown under it;
   * the certifications heading and text only when certifications are non-empty.
   */
  function ExpectedSections(m: FormState): seq<Piece> {
    [Heading(SUMMARY_TITLE), Hole(Scalar(Summary), m.summary)]
    + [Heading(EXPERIENCE_TITLE)] + JobEntries(m.experience)
    + [Heading(EDUCATION_TITLE)] + EduEntries(m.education)
    + [Heading(SKILLS_TITLE), Hole(Scalar(Skills), m.skills)]
    + (if m.certifications != "" then [Heading(CERTIFICATIONS_TITLE), Hole(Scalar(Certifications), m.certifications)] else [])
  }

  /** The whole page: the name in the document title, then the header, then the sections. */
  function ExpectedOutline(m: FormState, photo: Option<string>): seq<Piece> {
    [Hole(PageTitle, m.fullName)] + ExpectedHeader(m, photo) + ExpectedSections(m)
  }

  // ---------------------------------------------------------------------------
  // Lemmas: the outline of concatenated parts

  lemma {:induction false} OutlineAppend(a: seq<Piece>, b: seq<Piece>)
    ensures Outline(a + b) == Outline(a) + Outline(b)
  {
    if a == [] {
      assert a + b == b;
    } else {
      assert (a + b)[0] == a[0];
      assert (a + b)[1..] == a[1..] + b;
      OutlineAppend(a[1..], b);
    }
  }

  lemma OutlineAppend3(a: seq<Piece>, b: seq<Piece>, c: seq<Piece>)
    ensures Outline(a + b + c) == Outline(a) + Outline(b) + Outline(c)
  {
    OutlineAppend(a + b, c);
    OutlineAppend(a, b);
  }

  lemma OutlineAppend4(a: seq<Piece>, b: seq<Piece>, c: seq<Piece>, d: seq<Piece>)
    ensures Outline(a + b + c + d) == Outline(a) + Outline(b) + Outline(c) + Outline(d)
  {
    OutlineAppend(a + b + c, d);
    OutlineAppend3(a, b, c);
  }

  lemma OutlineAppend5(a: seq<Piece>, b: seq<Piece>, c: seq<Piece>, d: seq<Piece>, e: seq<Piece>)
    ensures Outline(a + b + c + d + e) == Outline(a) + Outline(b) + Outline(c) + Outline(d) + Outline(e)
  {
    OutlineAppend(a + b + c + d, e);
    OutlineAppend4(a, b, c, d);
  }

  /** The outline keeps every interpolated value: each slot holds the same values, in the same order. */
  lemma {:induction false} ValuesOutline(ps: seq<Piece>, s: Slot)
    ensures Values(Outline(ps), s) == Values(ps, s)
  {
    if ps != [] {
      ValuesOutline(ps[1..], s);
      if !ps[0].Lit? {
        var o := Outline(ps);
        assert o == [ps[0]] + Outline(ps[1..]);
        assert o[0] == ps[0] && o[1..] == Outline(ps[1..]);
      } else {
        assert Outline(ps) == Outline(ps[1..]);
        assert Values(ps, s) == Values(ps[1..], s);
      }
    }
  }

  /** The outline keeps every section heading, in the same order. */
  lemma {:induction false} HeadingsOutline(ps: seq<Piece>)
    ensures Headings(Outline(ps)) == Headings(ps)
  {
    if ps != [] {
      HeadingsOutline(ps[1..]);
      if !ps[0].Lit? {
        var o := Outline(ps);
        assert o == [ps[0]] + Outline(ps[1..]);
        assert o[0] == ps[0] && o[1..] == Outline(ps[1..]);
      } else {
        assert Outline(ps) == Outline(ps[1..]);
        assert Headings(ps) == Headings(ps[1..]);
      }
    }
  }

  /** Fixed markup leaves no trace in the outline. */
  lemma OutlineLit(k: Markup)
    ensures Outline([Lit(k)]) == []
  {
    assert [Lit(k)][1..] == [];
  }

  /** A hole and its closing markup leave the hole alone. */
  lemma OutlineFill(s: Slot, v: string, close: Markup)
    ensures Outline(Fill(s, v, close)) == [Hole(s, v)]
  {
    var ps := Fill(s, v, close);
    assert ps[1..] == [Lit(close)];
    OutlineLit(close);
  }

  // ---------------------------------------------------------------------------
  // Lemmas: the outline of each part of the template

  lemma ParagraphOutline(f: Field, v: string)
    ensures Outline(Paragraph(f, v)) == [Hole(Scalar(f), v)]
  {
    OutlineAppend([Lit(ParaOpen)], Fill(Scalar(f), v, ParaClose));
    OutlineLit(ParaOpen);
    OutlineFill(Scalar(f), v, ParaClose);
  }

  /** A section's heading comes first, directly followed by the section's body. */
  lemma SectionOutline(title: string, body: seq<Piece>)
    ensures Outline(Section(title, body)) == [Heading(title)] + Outline(body)
  {
    OutlineAppend4([Lit(SectionOpen)], [Heading(title)], body, [Lit(DivClose)]);
    OutlineLit(SectionOpen);
    OutlineLit(DivClose);
    assert [Heading(title)][1..] == [];
    Inner(Outline(Section(title, body)), Outline([Lit(SectionOpen)]), Outline([Heading(title)]),
      Outline(body), Outline([Lit(DivClose)]));
  }

  /** Empty parts at both ends of a concatenation add nothing. */
  lemma Inner<T>(v: seq<T>, a: seq<T>, b: seq<T>, c: seq<T>, d: seq<T>)
    requires v == a + b + c + d && a == [] && d == []
    ensures v == b + c
  {
    assert v == b + c;
  }

  lemma PreambleOutline(m: FormState)
    ensures Outline(Preamble(m)) == [Hole(PageTitle, m.fullName)]
  {
    OutlineAppend([Lit(DocumentStart)], Fill(PageTitle, m.fullName, HeadEnd));
    OutlineLit(DocumentStart);
    OutlineFill(PageTitle, m.fullName, HeadEnd);
  }

  lemma PhotoImageOutline(photo: Option<string>)
    ensures Outline(PhotoImage(photo)) == if HasPhoto(photo) then [Hole(PhotoSrc, photo.value)] else []
  {
    if HasPhoto(photo) {
      OutlineAppend([Lit(PhotoOpen)], Fill(PhotoSrc, photo.value, PhotoClose));
      OutlineLit(PhotoOpen);
      OutlineFill(PhotoSrc, photo.value, PhotoClose);
    }
  }

  lemma LinkedInLineOutline(linkedin: string)
    ensures Outline(LinkedInLine(linkedin)) == if linkedin != "" then [Hole(Scalar(LinkedIn), linkedin)] else []
  {
    if linkedin != "" {
      ParagraphOutline(LinkedIn, linkedin);
    }
  }

  /** The name, title and contact lines: five holes in the order of the template. */
  lemma IdentityOutline(m: FormState)
    ensures Outline(Identity(m))
         == [Hole(Scalar(FullName), m.fullName), Hole(Scalar(Title), m.title),
             Hole(Scalar(Email), m.email), Hole(Scalar(Phone), m.phone), Hole(Scalar(Location), m.location)]
  {
    OutlineAppend(NameLines(m), ContactLines(m));
    OutlineAppend3([Lit(NameOpen)], Fill(Scalar(FullName), m.fullName, NameClose), Fill(Scalar(Title), m.title, ParaClose));
    OutlineAppend4([Lit(ContactOpen)], Fill(Scalar(Email), m.email, Separator),
      Fill(Scalar(Phone), m.phone, NextLine), Fill(Scalar(Location), m.location, ParaClose));
    OutlineLit(NameOpen);
    OutlineLit(ContactOpen);
    OutlineFill(Scalar(FullName), m.fullName, NameClose);
    OutlineFill(Scalar(Title), m.title, ParaClose);
    OutlineFill(Scalar(Email), m.email, Separator);
    OutlineFill(Scalar(Phone), m.phone, NextLine);
    OutlineFill(Scalar(Location), m.location, ParaClose);
  }

  /** The header holds the portrait, then the identity lines, then the LinkedIn line. */
  lemma HeaderOutline(m: FormState, photo: Option<string>)
    ensures Outline(Header(m, photo)) == ExpectedHeader(m, photo)
  {
    OutlineAppend5([Lit(HeaderOpen)], PhotoImage(photo), Identity(m), LinkedInLine(m.linkedin), [Lit(HeaderClose)]);
    OutlineLit(HeaderOpen);
    OutlineLit(HeaderClose);
    PhotoImageOutline(photo);
    IdentityOutline(m);
    LinkedInLineOutline(m.linkedin);
    Inside(Outline(Header(m, photo)), Outline([Lit(HeaderOpen)]), Outline(PhotoImage(photo)),
      Outline(Identity(m)), Outline(LinkedInLine(m.linkedin)), Outline([Lit(HeaderClose)]));
  }


  /** A job block shows its entry's four values in the order of the template. */
  lemma JobBlockOutline(e: Experience)
    ensures Outline(JobBlock(e)) == JobEntry(e)
  {
    OutlineAppend5([Lit(JobOpen)], Fill(Job(Position), e.position, EntryTitleClose),
      Fill(Job(Company), e.company, PlaceClose), Fill(Job(Duration), e.duration, DurationClose),
      Fill(Job(Description), e.description, ParaDivClose));
    OutlineLit(JobOpen);
    OutlineFill(Job(Position), e.position, EntryTitleClose);
    OutlineFill(Job(Company), e.company, PlaceClose);
    OutlineFill(Job(Duration), e.duration, DurationClose);
    OutlineFill(Job(Description), e.description, ParaDivClose);
  }

  /** The experience blocks follow the list: block `i` holds exactly entry `i`'s values. */
  lemma {:induction false} JobsOutline(exps: seq<Experience>)
    ensures Outline(Jobs(exps)) == JobEntries(exps)
  {
    if exps != [] {
      assert Jobs(exps) == JobBlock(exps[0]) + Jobs(exps[1..]);
      OutlineAppend(JobBlock(exps[0]), Jobs(exps[1..]));
      JobBlockOutline(exps[0]);
      JobsOutline(exps[1..]);
    }
  }

  lemma GpaLineOutline(gpa: string)
    ensures Outline(GpaLine(gpa)) == if gpa != "" then [Hole(School(Gpa), gpa)] else []
  {
    if gpa != "" {
      OutlineAppend([Lit(GpaOpen)], Fill(School(Gpa), gpa, ParaClose));
      OutlineLit(GpaOpen);
      OutlineFill(School(Gpa), gpa, ParaClose);
    }
  }

  /** An education block shows degree, institution and year, then the GPA line when there is one. */
  lemma EduBlockOutline(e: Education)
    ensures Outline(EduBlock(e)) == EduEntry(e)
  {
    OutlineAppend3(EduHeader(e), GpaLine(e.gpa), [Lit(DivClose)]);
    OutlineAppend4([Lit(EduOpen)], Fill(School(Degree), e.degree, EntryTitleClose),
      Fill(School(Institution), e.institution, PlaceClose), Fill(School(Year), e.year, ParaDivClose));
    OutlineLit(EduOpen);
    OutlineLit(DivClose);
    OutlineFill(School(Degree), e.degree, EntryTitleClose);
    OutlineFill(School(Institution), e.institution, PlaceClose);
    OutlineFill(School(Year), e.year, ParaDivClose);
    GpaLineOutline(e.gpa);
  }

  /** The education blocks follow the list: block `i` holds exactly entry `i`'s values. */
  lemma {:induction false} SchoolsOutline(edus: seq<Education>)
    ensures Outline(Schools(edus)) == EduEntries(edus)
  {
    if edus != [] {
      assert Schools(edus) == EduBlock(edus[0]) + Schools(edus[1..]);
      OutlineAppend(EduBlock(edus[0]), Schools(edus[1..]));
      EduBlockOutline(edus[0]);
      SchoolsOutline(edus[1..]);
    }
  }

  lemma CertificationsOutline(certifications: string)
    ensures Outline(CertificationsSection(certifications))
         == if certifications != "" then [Heading(CERTIFICATIONS_TITLE), Hole(Scalar(Certifications), certifications)] else []
  {
    if certifications != "" {
      ParagraphSectionOutline(CERTIFICATIONS_TITLE, Certifications, certifications);
    }
  }

  /** A paragraph section: its heading directly followed by its one value. */
  lemma ParagraphSectionOutline(title: string, f: Field, v: string)
    ensures Outline(Section(title, Paragraph(f, v))) == [Heading(title), Hole(Scalar(f), v)]
  {
    SectionOutline(title, Paragraph(f, v));
    ParagraphOutline(f, v);
  }

  /** Each section's heading is directly followed by its own content, sections in their fixed order. */
  lemma SectionsOutline(m: FormState)
    ensures Outline(Sections(m)) == ExpectedSections(m)
  {
    var summary, experience, education, skills, certifications :=
      SummarySection(m), ExperienceSection(m), EducationSection(m), SkillsSection(m), CertificationsSection(m.certifications);
    OutlineAppend5(summary, experience, education, skills, certifications);
    ParagraphSectionOutline(SUMMARY_TITLE, Summary, m.summary);
    SectionOutline(EXPERIENCE_TITLE, Jobs(m.experience));
    JobsOutline(m.experience);
    SectionOutline(EDUCATION_TITLE, Schools(m.education));
    SchoolsOutline(m.education);
    ParagraphSectionOutline(SKILLS_TITLE, Skills, m.skills);
    CertificationsOutline(m.certifications);
    Flatten(Outline(Sections(m)), Outline(summary), [Heading(EXPERIENCE_TITLE)], JobEntries(m.experience),
      [Heading(EDUCATION_TITLE)], EduEntries(m.education), Outline(skills), Outline(certifications));
  }

  /** Two sections given as heading and body regroup into one flat concatenation. */
  lemma Flatten<T>(v: seq<T>, a: seq<T>, h1: seq<T>, b1: seq<T>, h2: seq<T>, b2: seq<T>, d: seq<T>, e: seq<T>)
    requires v == a + (h1 + b1) + (h2 + b2) + d + e
    ensures v == a + h1 + b1 + h2 + b2 + d + e
  {
    assert v == a + h1 + b1 + h2 + b2 + d + e;
  }

  /**
   * The exported page has exactly the expected outline: the name in the
   * document title, the header in its order, then the sections, each value
   * under its own heading and inside its own entry block.
   */
  lemma SerializeOutline(m: FormState, photo: Option<string>)
    ensures Outline(Serialize(m, photo)) == ExpectedOutline(m, photo)
  {
    OutlineAppend4(Preamble(m), Header(m, photo), Sections(m), [Lit(DocumentEnd)]);
    PreambleOutline(m);
    HeaderOutline(m, photo);
    SectionsOutline(m);
    OutlineLit(DocumentEnd);
  }
}
