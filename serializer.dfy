/**
 * The exported HTML document (`handleDownload`'s template).  The template is
 * modelled as the sequence of its pieces: fixed markup, section headings and
 * holes where a value is interpolated.  Rendering concatenates the pieces;
 * a hole renders as its value verbatim, with no escaping, as in the template.
 * Whether an element is present is a statement about the pieces: a value
 * that itself contains markup still renders as that markup.
 */
module Serializer {
  import opened Form

  /** Which interpolation a hole is. */
  datatype Slot =
    | PageTitle          // the full name in the <title> element
    | PhotoSrc           // the src of the portrait <img>
    | Scalar(field: Field)
    | Job(expField: ExpField)
    | School(eduField: EduField)

  /** The fixed markup between the interpolations of the template. */
  datatype Markup =
    | DocumentStart
    | HeadEnd
    | DocumentEnd
    | HeaderOpen
    | PhotoOpen
    | PhotoClose
    | NameOpen
    | NameClose
    | ContactOpen
    | Separator
    | NextLine
    | HeaderClose
    | SectionOpen
    | ParaOpen
    | ParaClose
    | DivClose
    | JobOpen
    | EduOpen
    | EntryTitleClose
    | PlaceClose
    | DurationClose
    | ParaDivClose
    | GpaOpen

  datatype Piece =
    | Lit(markup: Markup)
    | Heading(title: string)
    | Hole(slot: Slot, value: string)

  /** The stylesheet of the exported page; its rules are not part of this model. */
  const STYLESHEET := "/* page stylesheet */"

  const SUMMARY_TITLE := "PROFESSIONAL SUMMARY"
  const EXPERIENCE_TITLE := "PROFESSIONAL EXPERIENCE"
  const EDUCATION_TITLE := "EDUCATION"
  const SKILLS_TITLE := "SKILLS"
  const CERTIFICATIONS_TITLE := "CERTIFICATIONS"

  /** The text of each piece of fixed markup, without the template's layout whitespace. */
  function MarkupText(k: Markup): string {
    match k
    case DocumentStart => "<!DOCTYPE html><html><head><meta charset=\"UTF-8\"><title>"
    case HeadEnd => " - Resume</title><style>" + STYLESHEET + "</style></head><body>"
    case DocumentEnd => "</body></html>"
    case HeaderOpen => "<div class=\"header\">"
    case PhotoOpen => "<img src=\""
    case PhotoClose => "\" class=\"photo\" alt=\"Profile Photo\" />"
    case NameOpen => "<div class=\"header-text\"><h1>"
    case NameClose => "</h1><p class=\"title\">"
    case ContactOpen => "<div class=\"contact\"><p>"
    case Separator => " | "
    case NextLine => "</p><p>"
    case HeaderClose => "</div></div></div>"
    case SectionOpen => "<div class=\"section\">"
    case ParaOpen => "<p>"
    case ParaClose => "</p>"
    case DivClose => "</div>"
    case JobOpen => "<div class=\"job\"><div class=\"job-header\"><div><h3>"
    case EduOpen => "<div class=\"edu\"><div class=\"edu-header\"><div><h3>"
    case EntryTitleClose => "</h3><p class=\"company\">"
    case PlaceClose => "</p></div><p class=\"duration\">"
    case DurationClose => "</p></div><p>"
    case ParaDivClose => "</p></div>"
    case GpaOpen => "<p style=\"font-size: 12px;\">GPA: "
  }

  function Text(p: Piece): string {
    match p
    case Lit(k) => MarkupText(k)
    case Heading(t) => "<h2>" + t + "</h2>"
    case Hole(_, v) => v
  }

  function Render(ps: seq<Piece>): string {
    if ps == [] then "" else Text(ps[0]) + Render(ps[1..])
  }

  /** The values interpolated into slot `s`, in document order. */
  function Values(ps: seq<Piece>, s: Slot): seq<string> {
    if ps == [] then []
    else (if ps[0].Hole? && ps[0].slot == s then [ps[0].value] else []) + Values(ps[1..], s)
  }

  /** The section headings, in document order. */
  function Headings(ps: seq<Piece>): seq<string> {
    if ps == [] then []
    else (if ps[0].Heading? then [ps[0].title] else []) + Headings(ps[1..])
  }

  /** JavaScript truthiness of the photo state: null and "" are both falsy. */
  predicate HasPhoto(photo: Option<string>) {
    photo.Some? && photo.value != ""
  }

  /** A hole followed by the markup that closes it. */
  function Fill(slot: Slot, v: string, close: Markup): seq<Piece> {
    [Hole(slot, v), Lit(close)]
  }

  function Section(title: string, body: seq<Piece>): seq<Piece> {
    [Lit(SectionOpen)] + [Heading(title)] + body + [Lit(DivClose)]
  }

  function Paragraph(f: Field, v: string): seq<Piece> {
    [Lit(ParaOpen)] + Fill(Scalar(f), v, ParaClose)
  }

  function Preamble(m: FormState): seq<Piece> {
    [Lit(DocumentStart)] + Fill(PageTitle, m.fullName, HeadEnd)
  }

  function PhotoImage(photo: Option<string>): seq<Piece> {
    if HasPhoto(photo) then [Lit(PhotoOpen)] + Fill(PhotoSrc, photo.value, PhotoClose) else []
  }

  function LinkedInLine(linkedin: string): seq<Piece> {
    if linkedin != "" then Paragraph(LinkedIn, linkedin) else []
  }

  /** The name and title lines of the header. */
  function NameLines(m: FormState): seq<Piece> {
    [Lit(NameOpen)] + Fill(Scalar(FullName), m.fullName, NameClose) + Fill(Scalar(Title), m.title, ParaClose)
  }

  /** The e-mail, phone and location lines of the header. */
  function ContactLines(m: FormState): seq<Piece> {
    [Lit(ContactOpen)]
    + Fill(Scalar(Email), m.email, Separator)
    + Fill(Scalar(Phone), m.phone, NextLine)
    + Fill(Scalar(Location), m.location, ParaClose)
  }

  /** The name, title and contact lines of the header. */
  function Identity(m: FormState): seq<Piece> {
    NameLines(m) + ContactLines(m)
  }

  function Header(m: FormState, photo: Option<string>): seq<Piece> {
    [Lit(HeaderOpen)] + PhotoImage(photo) + Identity(m) + LinkedInLine(m.linkedin) + [Lit(HeaderClose)]
  }

  function JobBlock(e: Experience): seq<Piece> {
    [Lit(JobOpen)]
    + Fill(Job(Position), e.position, EntryTitleClose)
    + Fill(Job(Company), e.company, PlaceClose)
    + Fill(Job(Duration), e.duration, DurationClose)
    + Fill(Job(Description), e.description, ParaDivClose)
  }

  /** `experience.map(exp => ...).join('')` */
  function Jobs(exps: seq<Experience>): seq<Piece> {
    if exps == [] then [] else JobBlock(exps[0]) + Jobs(exps[1..])
  }

  /** The GPA line is guarded by the GPA value the block is given. */
  function GpaLine(gpa: string): seq<Piece> {
    if gpa != "" then [Lit(GpaOpen)] + Fill(School(Gpa), gpa, ParaClose) else []
  }

  /** The degree, institution and year lines of an education block. */
  function EduHeader(e: Education): seq<Piece> {
    [Lit(EduOpen)]
    + Fill(School(Degree), e.degree, EntryTitleClose)
    + Fill(School(Institution), e.institution, PlaceClose)
    + Fill(School(Year), e.year, ParaDivClose)
  }

  function EduBlock(e: Education): seq<Piece> {
    EduHeader(e) + GpaLine(e.gpa) + [Lit(DivClose)]
  }

  /** `education.map(edu => ...).join('')` */
  function Schools(edus: seq<Education>): seq<Piece> {
    if edus == [] then [] else EduBlock(edus[0]) + Schools(edus[1..])
  }

  function CertificationsSection(certifications: string): seq<Piece> {
    if certifications != "" then Section(CERTIFICATIONS_TITLE, Paragraph(Certifications, certifications)) else []
  }

  function SummarySection(m: FormState): seq<Piece> {
    Section(SUMMARY_TITLE, Paragraph(Summary, m.summary))
  }

  function ExperienceSection(m: FormState): seq<Piece> {
    Section(EXPERIENCE_TITLE, Jobs(m.experience))
  }

  function EducationSection(m: FormState): seq<Piece> {
    Section(EDUCATION_TITLE, Schools(m.education))
  }

  function SkillsSection(m: FormState): seq<Piece> {
    Section(SKILLS_TITLE, Paragraph(Skills, m.skills))
  }

  /** The sections below the header, in their fixed order. */
  function Sections(m: FormState): seq<Piece> {
    SummarySection(m) + ExperienceSection(m) + EducationSection(m) + SkillsSection(m)
    + CertificationsSection(m.certifications)
  }

  /** The whole exported page for a built state and the photo state. */
  function Serialize(m: FormState, photo: Option<string>): seq<Piece> {
    Preamble(m) + Header(m, photo) + Sections(m) + [Lit(DocumentEnd)]
  }

  /** The text of the exported file: a whole HTML document, from the doctype to the closing tags. */
  function Html(m: FormState, photo: Option<string>): (r: string)
    ensures MarkupText(DocumentStart) <= r
    ensures |MarkupText(DocumentEnd)| <= |r| && r[|r| - |MarkupText(DocumentEnd)|..] == MarkupText(DocumentEnd)
  {
    SerializeEnds(m, photo);
    RenderEnds(Serialize(m, photo));
    Render(Serialize(m, photo))
  }

  // ---------------------------------------------------------------------------
  // What the page is expected to hold, slot by slot

  function ExpColumn(exps: seq<Experience>, f: ExpField): (r: seq<string>)
    ensures |r| == |exps|
    ensures forall i :: 0 <= i < |exps| ==> r[i] == ExpGet(exps[i], f)
  {
    seq(|exps|, i requires 0 <= i < |exps| => ExpGet(exps[i], f))
  }

  function EduColumn(edus: seq<Education>, f: EduField): (r: seq<string>)
    ensures |r| == |edus|
    ensures forall i :: 0 <= i < |edus| ==> r[i] == EduGet(edus[i], f)
  {
    seq(|edus|, i requires 0 <= i < |edus| => EduGet(edus[i], f))
  }

  /** The non-empty GPAs, in list order. */
  function GpaColumn(edus: seq<Education>): seq<string> {
    if edus == [] then []
    else (if edus[0].gpa != "" then [edus[0].gpa] else []) + GpaColumn(edus[1..])
  }

  /** The LinkedIn line and the certifications are shown only when non-empty; every other key once. */
  predicate Optional(f: Field) {
    f == LinkedIn || f == Certifications
  }

  /** The keys shown in the page header rather than in a section. */
  predicate InHeader(f: Field) {
    f != Summary && f != Skills && f != Certifications
  }

  /**
   * The reference layout of the page, slot by slot: which values appear and
   * in what order.
   */
  function Expected(m: FormState, photo: Option<string>, s: Slot): seq<string> {
    match s
    case PageTitle => [m.fullName]
    case PhotoSrc => if HasPhoto(photo) then [photo.value] else []
    case Scalar(f) => if Optional(f) && Get(m, f) == "" then [] else [Get(m, f)]
    case Job(f) => ExpColumn(m.experience, f)
    case School(f) => if f == Gpa then GpaColumn(m.education) else EduColumn(m.education, f)
  }

  // ---------------------------------------------------------------------------
  // Lemmas: values and headings of concatenated parts

  /** The piece is a hole of slot `s`. */
  predicate Fills(p: Piece, s: Slot) {
    p.Hole? && p.slot == s
  }

  lemma {:induction false} ValuesAppend(a: seq<Piece>, b: seq<Piece>, s: Slot)
    ensures Values(a + b, s) == Values(a, s) + Values(b, s)
  {
    if a == [] {
      assert a + b == b;
    } else {
      assert (a + b)[0] == a[0];
      assert (a + b)[1..] == a[1..] + b;
      ValuesAppend(a[1..], b, s);
    }
  }

  lemma {:induction false} HeadingsAppend(a: seq<Piece>, b: seq<Piece>)
    ensures Headings(a + b) == Headings(a) + Headings(b)
  {
    if a == [] {
      assert a + b == b;
    } else {
      assert (a + b)[0] == a[0];
      assert (a + b)[1..] == a[1..] + b;
      HeadingsAppend(a[1..], b);
    }
  }

  lemma Append3(a: seq<Piece>, b: seq<Piece>, c: seq<Piece>, s: Slot)
    ensures Values(a + b + c, s) == Values(a, s) + Values(b, s) + Values(c, s)
    ensures Headings(a + b + c) == Headings(a) + Headings(b) + Headings(c)
  {
    ValuesAppend(a + b, c, s);
    ValuesAppend(a, b, s);
    HeadingsAppend(a + b, c);
    HeadingsAppend(a, b);
  }

  lemma Append4(a: seq<Piece>, b: seq<Piece>, c: seq<Piece>, d: seq<Piece>, s: Slot)
    ensures Values(a + b + c + d, s) == Values(a, s) + Values(b, s) + Values(c, s) + Values(d, s)
    ensures Headings(a + b + c + d) == Headings(a) + Headings(b) + Headings(c) + Headings(d)
  {
    ValuesAppend(a + b + c, d, s);
    HeadingsAppend(a + b + c, d);
    Append3(a, b, c, s);
  }

  lemma Append5(a: seq<Piece>, b: seq<Piece>, c: seq<Piece>, d: seq<Piece>, e: seq<Piece>, s: Slot)
    ensures Values(a + b + c + d + e, s) == Values(a, s) + Values(b, s) + Values(c, s) + Values(d, s) + Values(e, s)
    ensures Headings(a + b + c + d + e) == Headings(a) + Headings(b) + Headings(c) + Headings(d) + Headings(e)
  {
    ValuesAppend(a + b + c + d, e, s);
    HeadingsAppend(a + b + c + d, e);
    Append4(a, b, c, d, s);
  }

  /** A concatenation of five parts of which only part `k` may be non-empty. */
  lemma OnlyPart(v: seq<string>, a: seq<string>, b: seq<string>, c: seq<string>, d: seq<string>, e: seq<string>, k: nat)
    requires v == a + b + c + d + e
    requires k != 0 ==> a == []
    requires k != 1 ==> b == []
    requires k != 2 ==> c == []
    requires k != 3 ==> d == []
    requires k != 4 ==> e == []
    ensures v == if k == 0 then a else if k == 1 then b else if k == 2 then c else if k == 3 then d else e
  {
  }

  /** A concatenation of four parts of which only part `k` may be non-empty. */
  lemma OnlyPart4(v: seq<string>, a: seq<string>, b: seq<string>, c: seq<string>, d: seq<string>, k: nat)
    requires v == a + b + c + d
    requires k != 0 ==> a == []
    requires k != 1 ==> b == []
    requires k != 2 ==> c == []
    requires k != 3 ==> d == []
    ensures v == if k == 0 then a else if k == 1 then b else if k == 2 then c else d
  {
  }

  /** Fixed markup holds no value and no heading. */
  lemma LitValues(k: Markup, s: Slot)
    ensures Values([Lit(k)], s) == [] && Headings([Lit(k)]) == []
  {
    assert [Lit(k)][1..] == [];
  }

  lemma HeadingValues(title: string, s: Slot)
    ensures Values([Heading(title)], s) == [] && Headings([Heading(title)]) == [title]
  {
    assert [Heading(title)][1..] == [];
  }

  lemma FillValues(slot: Slot, v: string, close: Markup, s: Slot)
    ensures Values(Fill(slot, v, close), s) == if slot == s then [v] else []
    ensures Headings(Fill(slot, v, close)) == []
  {
    var ps := Fill(slot, v, close);
    assert ps[1..] == [Lit(close)];
    LitValues(close, s);
  }

  // ---------------------------------------------------------------------------
  // Lemmas: rendering

  /**
   * Every piece, in particular every interpolated value, appears verbatim in
   * the rendered text, between the text of the pieces before it and after it.
   */
  lemma {:induction false} RenderAt(ps: seq<Piece>, i: nat)
    requires i < |ps|
    ensures Render(ps) == Render(ps[..i]) + Text(ps[i]) + Render(ps[i + 1..])
    ensures ps[i].Hole? ==> Text(ps[i]) == ps[i].value
  {
    if i == 0 {
      assert ps[..0] == [];
    } else {
      var rest := ps[1..];
      RenderAt(rest, i - 1);
      assert rest[..i - 1] == ps[..i][1..];
      assert rest[i - 1 + 1..] == ps[i + 1..];
      assert rest[i - 1] == ps[i];
      assert ps[..i][0] == ps[0];
      assert Render(ps[..i]) == Text(ps[0]) + Render(rest[..i - 1]);
      Reassociate(Render(ps), Text(ps[0]), Render(rest), Render(rest[..i - 1]), Text(ps[i]), Render(ps[i + 1..]));
    }
  }

  lemma Reassociate(whole: string, head: string, rest: string, a: string, b: string, c: string)
    requires whole == head + rest && rest == a + b + c
    ensures whole == (head + a) + b + c
  {
  }

  /** The page opens the document and its head, and it ends by closing the document. */
  lemma SerializeEnds(m: FormState, photo: Option<string>)
    ensures Serialize(m, photo) != []
    ensures Serialize(m, photo)[0] == Lit(DocumentStart)
    ensures Serialize(m, photo)[|Serialize(m, photo)| - 1] == Lit(DocumentEnd)
  {
  }

  /** The rendered text begins with the text of the first piece and ends with the text of the last. */
  lemma RenderEnds(ps: seq<Piece>)
    requires ps != []
    ensures Text(ps[0]) <= Render(ps)
    ensures |Text(ps[|ps| - 1])| <= |Render(ps)|
    ensures Render(ps)[|Render(ps)| - |Text(ps[|ps| - 1])|..] == Text(ps[|ps| - 1])
  {
    var i := |ps| - 1;
    RenderAt(ps, i);
    assert ps[i + 1..] == [];
    var head, last := Render(ps[..i]), Text(ps[i]);
    assert Render(ps) == head + last;
    assert (head + last)[|head|..] == last;
  }

  /** The `n` characters of `t` from position `i` on. */
  function Window(t: string, i: int, n: nat): string
    requires 0 <= i <= |t| - n
  {
    t[i..i + n]
  }

  /** `v` appears in `t` as a contiguous run of characters. */
  predicate Occurs(v: string, t: string) {
    exists i :: 0 <= i <= |t| - |v| && Window(t, i, |v|) == v
  }

  lemma OccursAfter(v: string, a: string, b: string)
    requires Occurs(v, b)
    ensures Occurs(v, a + b)
  {
    var i :| 0 <= i <= |b| - |v| && Window(b, i, |v|) == v;
    assert Window(a + b, |a| + i, |v|) == v;
  }

  /**
   * No escaping: every value interpolated into the page occurs in the
   * rendered text exactly as given, markup and quotes included.
   */
  lemma {:induction false} ValuesVerbatim(ps: seq<Piece>, s: Slot, k: nat)
    requires k < |Values(ps, s)|
    ensures Occurs(Values(ps, s)[k], Render(ps))
  {
    assert ps != [];
    var rest := Render(ps[1..]);
    assert Render(ps) == Text(ps[0]) + rest;
    var vs := Values(ps[1..], s);
    if Fills(ps[0], s) {
      var v := ps[0].value;
      assert Values(ps, s) == [v] + vs;
      if k == 0 {
        assert Window(Render(ps), 0, |v|) == v;
      } else {
        assert Values(ps, s)[k] == vs[k - 1];
        ValuesVerbatim(ps[1..], s, k - 1);
        OccursAfter(vs[k - 1], v, rest);
      }
    } else {
      assert Values(ps, s) == vs;
      ValuesVerbatim(ps[1..], s, k);
      OccursAfter(vs[k], Text(ps[0]), rest);
    }
  }

  // ---------------------------------------------------------------------------
  // Lemmas: the parts of the page

  lemma SectionValues(title: string, body: seq<Piece>, s: Slot)
    ensures Values(Section(title, body), s) == Values(body, s)
    ensures Headings(Section(title, body)) == [title] + Headings(body)
  {
    Append4([Lit(SectionOpen)], [Heading(title)], body, [Lit(DivClose)], s);
    LitValues(SectionOpen, s);
    HeadingValues(title, s);
    LitValues(DivClose, s);
  }

  lemma ParagraphValues(f: Field, v: string, s: Slot)
    ensures Values(Paragraph(f, v), s) == if s == Scalar(f) then [v] else []
    ensures Headings(Paragraph(f, v)) == []
  {
    Append3([Lit(ParaOpen)], Fill(Scalar(f), v, ParaClose), [], s);
    assert Paragraph(f, v) == [Lit(ParaOpen)] + Fill(Scalar(f), v, ParaClose) + [];
    LitValues(ParaOpen, s);
    FillValues(Scalar(f), v, ParaClose, s);
  }

  lemma PreambleValues(m: FormState, s: Slot)
    ensures Values(Preamble(m), s) == if s == PageTitle then [m.fullName] else []
    ensures Headings(Preamble(m)) == []
  {
    ValuesAppend([Lit(DocumentStart)], Fill(PageTitle, m.fullName, HeadEnd), s);
    HeadingsAppend([Lit(DocumentStart)], Fill(PageTitle, m.fullName, HeadEnd));
    LitValues(DocumentStart, s);
    FillValues(PageTitle, m.fullName, HeadEnd, s);
  }

  lemma PhotoImageValues(photo: Option<string>, s: Slot)
    ensures Values(PhotoImage(photo), s) == if s == PhotoSrc && HasPhoto(photo) then [photo.value] else []
    ensures Headings(PhotoImage(photo)) == []
  {
    if HasPhoto(photo) {
      ValuesAppend([Lit(PhotoOpen)], Fill(PhotoSrc, photo.value, PhotoClose), s);
      HeadingsAppend([Lit(PhotoOpen)], Fill(PhotoSrc, photo.value, PhotoClose));
      LitValues(PhotoOpen, s);
      FillValues(PhotoSrc, photo.value, PhotoClose, s);
    }
  }

  lemma LinkedInLineValues(linkedin: string, s: Slot)
    ensures Values(LinkedInLine(linkedin), s) == if s == Scalar(LinkedIn) && linkedin != "" then [linkedin] else []
    ensures Headings(LinkedInLine(linkedin)) == []
  {
    if linkedin != "" {
      ParagraphValues(LinkedIn, linkedin, s);
    }
  }

  lemma NameLinesValues(m: FormState, s: Slot)
    ensures Values(NameLines(m), s)
         == if s == Scalar(FullName) then [m.fullName] else if s == Scalar(Title) then [m.title] else []
    ensures Headings(NameLines(m)) == []
  {
    Append3([Lit(NameOpen)], Fill(Scalar(FullName), m.fullName, NameClose), Fill(Scalar(Title), m.title, ParaClose), s);
    LitValues(NameOpen, s);
    FillValues(Scalar(FullName), m.fullName, NameClose, s);
    FillValues(Scalar(Title), m.title, ParaClose, s);
  }

  lemma ContactLinesValues(m: FormState, s: Slot)
    ensures Values(ContactLines(m), s)
         == if s == Scalar(Email) then [m.email]
            else if s == Scalar(Phone) then [m.phone]
            else if s == Scalar(Location) then [m.location]
            else []
    ensures Headings(ContactLines(m)) == []
  {
    Append4([Lit(ContactOpen)], Fill(Scalar(Email), m.email, Separator), Fill(Scalar(Phone), m.phone, NextLine),
            Fill(Scalar(Location), m.location, ParaClose), s);
    LitValues(ContactOpen, s);
    FillValues(Scalar(Email), m.email, Separator, s);
    FillValues(Scalar(Phone), m.phone, NextLine, s);
    FillValues(Scalar(Location), m.location, ParaClose, s);
    var v, z := Values(ContactLines(m), s), Values([Lit(ContactOpen)], s);
    var a, b, c := Values(Fill(Scalar(Email), m.email, Separator), s), Values(Fill(Scalar(Phone), m.phone, NextLine), s),
      Values(Fill(Scalar(Location), m.location, ParaClose), s);
    if s == Scalar(Email) {
      OnlyPart4(v, z, a, b, c, 1);
    } else if s == Scalar(Phone) {
      OnlyPart4(v, z, a, b, c, 2);
    } else if s == Scalar(Location) {
      OnlyPart4(v, z, a, b, c, 3);
    } else {
      OnlyPart4(v, z, a, b, c, 0);
    }
  }

  lemma IdentityValues(m: FormState, s: Slot)
    ensures Values(Identity(m), s)
         == if s == Scalar(FullName) then [m.fullName]
            else if s == Scalar(Title) then [m.title]
            else if s == Scalar(Email) then [m.email]
            else if s == Scalar(Phone) then [m.phone]
            else if s == Scalar(Location) then [m.location]
            else []
    ensures Headings(Identity(m)) == []
  {
    ValuesAppend(NameLines(m), ContactLines(m), s);
    HeadingsAppend(NameLines(m), ContactLines(m));
    NameLinesValues(m, s);
    ContactLinesValues(m, s);
  }

  /** The header holds the portrait, the name, title and contact lines and the LinkedIn line, and no heading. */
  lemma HeaderValues(m: FormState, photo: Option<string>, s: Slot)
    ensures Values(Header(m, photo), s)
         == Values(PhotoImage(photo), s) + Values(Identity(m), s) + Values(LinkedInLine(m.linkedin), s)
    ensures Headings(Header(m, photo)) == []
  {
    Append5([Lit(HeaderOpen)], PhotoImage(photo), Identity(m), LinkedInLine(m.linkedin), [Lit(HeaderClose)], s);
    LitValues(HeaderOpen, s);
    LitValues(HeaderClose, s);
    Inside(Values(Header(m, photo), s), Values([Lit(HeaderOpen)], s), Values(PhotoImage(photo), s),
      Values(Identity(m), s), Values(LinkedInLine(m.linkedin), s), Values([Lit(HeaderClose)], s));
    PhotoImageValues(photo, s);
    IdentityValues(m, s);
    LinkedInLineValues(m.linkedin, s);
    Inside(Headings(Header(m, photo)), Headings([Lit(HeaderOpen)]), Headings(PhotoImage(photo)),
      Headings(Identity(m)), Headings(LinkedInLine(m.linkedin)), Headings([Lit(HeaderClose)]));
  }

  /** Empty parts at both ends of a concatenation add nothing. */
  lemma Inside<T>(v: seq<T>, a: seq<T>, b: seq<T>, c: seq<T>, d: seq<T>, e: seq<T>)
    requires v == a + b + c + d + e && a == [] && e == []
    ensures v == b + c + d
  {
  }

  lemma JobBlockValues(e: Experience, s: Slot)
    ensures Values(JobBlock(e), s) == if s.Job? then [ExpGet(e, s.expField)] else []
    ensures Headings(JobBlock(e)) == []
  {
    var a, b, c, d := Fill(Job(Position), e.position, EntryTitleClose), Fill(Job(Company), e.company, PlaceClose),
      Fill(Job(Duration), e.duration, DurationClose), Fill(Job(Description), e.description, ParaDivClose);
    Append5([Lit(JobOpen)], a, b, c, d, s);
    LitValues(JobOpen, s);
    FillValues(Job(Position), e.position, EntryTitleClose, s);
    FillValues(Job(Company), e.company, PlaceClose, s);
    FillValues(Job(Duration), e.duration, DurationClose, s);
    FillValues(Job(Description), e.description, ParaDivClose, s);
    if s.Job? {
      JobBlockField(e, s.expField);
    } else {
      var v, z := Values(JobBlock(e), s), Values([Lit(JobOpen)], s);
      OnlyPart(v, z, Values(a, s), Values(b, s), Values(c, s), Values(d, s), 0);
    }
  }

  /** The job block shows the entry's value of each field once. */
  lemma JobBlockField(e: Experience, f: ExpField)
    ensures Values(JobBlock(e), Job(f)) == [ExpGet(e, f)]
  {
    var s := Job(f);
    var a, b, c, d := Fill(Job(Position), e.position, EntryTitleClose), Fill(Job(Company), e.company, PlaceClose),
      Fill(Job(Duration), e.duration, DurationClose), Fill(Job(Description), e.description, ParaDivClose);
    Append5([Lit(JobOpen)], a, b, c, d, s);
    LitValues(JobOpen, s);
    FillValues(Job(Position), e.position, EntryTitleClose, s);
    FillValues(Job(Company), e.company, PlaceClose, s);
    FillValues(Job(Duration), e.duration, DurationClose, s);
    FillValues(Job(Description), e.description, ParaDivClose, s);
    var v, z := Values(JobBlock(e), s), Values([Lit(JobOpen)], s);
    var va, vb, vc, vd := Values(a, s), Values(b, s), Values(c, s), Values(d, s);
    match f
    case Position => OnlyPart(v, z, va, vb, vc, vd, 1);
    case Company => OnlyPart(v, z, va, vb, vc, vd, 2);
    case Duration => OnlyPart(v, z, va, vb, vc, vd, 3);
    case Description => OnlyPart(v, z, va, vb, vc, vd, 4);
  }

  /** The experience section holds one job block per entry: each field once per entry, in list order. */
  lemma {:induction false} JobsValues(exps: seq<Experience>, s: Slot)
    ensures Values(Jobs(exps), s) == if s.Job? then ExpColumn(exps, s.expField) else []
    ensures Headings(Jobs(exps)) == []
  {
    if exps != [] {
      var e, rest := exps[0], exps[1..];
      assert Jobs(exps) == JobBlock(e) + Jobs(rest);
      JobsValues(rest, s);
      JobBlockValues(e, s);
      ValuesAppend(JobBlock(e), Jobs(rest), s);
      HeadingsAppend(JobBlock(e), Jobs(rest));
      if s.Job? {
        ExpColumnCons(exps, s.expField);
      }
    }
  }

  lemma ExpColumnCons(exps: seq<Experience>, f: ExpField)
    requires exps != []
    ensures ExpColumn(exps, f) == [ExpGet(exps[0], f)] + ExpColumn(exps[1..], f)
  {
  }

  lemma EduHeaderValues(e: Education, s: Slot)
    ensures Values(EduHeader(e), s) == if s.School? && s.eduField != Gpa then [EduGet(e, s.eduField)] else []
    ensures Headings(EduHeader(e)) == []
  {
    Append4([Lit(EduOpen)],
      Fill(School(Degree), e.degree, EntryTitleClose), Fill(School(Institution), e.institution, PlaceClose),
      Fill(School(Year), e.year, ParaDivClose), s);
    LitValues(EduOpen, s);
    FillValues(School(Degree), e.degree, EntryTitleClose, s);
    FillValues(School(Institution), e.institution, PlaceClose, s);
    FillValues(School(Year), e.year, ParaDivClose, s);
    var v, z := Values(EduHeader(e), s), Values([Lit(EduOpen)], s);
    var a, b, c := Values(Fill(School(Degree), e.degree, EntryTitleClose), s),
      Values(Fill(School(Institution), e.institution, PlaceClose), s), Values(Fill(School(Year), e.year, ParaDivClose), s);
    if s == School(Degree) {
      OnlyPart4(v, z, a, b, c, 1);
    } else if s == School(Institution) {
      OnlyPart4(v, z, a, b, c, 2);
    } else if s == School(Year) {
      OnlyPart4(v, z, a, b, c, 3);
    } else {
      OnlyPart4(v, z, a, b, c, 0);
    }
  }

  lemma GpaLineValues(gpa: string, s: Slot)
    ensures Values(GpaLine(gpa), s) == if s == School(Gpa) && gpa != "" then [gpa] else []
    ensures Headings(GpaLine(gpa)) == []
  {
    if gpa != "" {
      ValuesAppend([Lit(GpaOpen)], Fill(School(Gpa), gpa, ParaClose), s);
      HeadingsAppend([Lit(GpaOpen)], Fill(School(Gpa), gpa, ParaClose));
      LitValues(GpaOpen, s);
      FillValues(School(Gpa), gpa, ParaClose, s);
    }
  }

  lemma EduBlockValues(e: Education, s: Slot)
    ensures Values(EduBlock(e), s)
         == if s == School(Gpa) then (if e.gpa != "" then [e.gpa] else [])
            else if s.School? then [EduGet(e, s.eduField)]
            else []
    ensures Headings(EduBlock(e)) == []
  {
    Append3(EduHeader(e), GpaLine(e.gpa), [Lit(DivClose)], s);
    LitValues(DivClose, s);
    EduHeaderValues(e, s);
    GpaLineValues(e.gpa, s);
  }

  /** The education section holds one block per entry, in list order; the GPA only where non-empty. */
  lemma {:induction false} SchoolsValues(edus: seq<Education>, s: Slot)
    ensures Values(Schools(edus), s)
         == if s == School(Gpa) then GpaColumn(edus)
            else if s.School? then EduColumn(edus, s.eduField)
            else []
    ensures Headings(Schools(edus)) == []
  {
    if edus != [] {
      var e, rest := edus[0], edus[1..];
      assert Schools(edus) == EduBlock(e) + Schools(rest);
      SchoolsValues(rest, s);
      EduBlockValues(e, s);
      ValuesAppend(EduBlock(e), Schools(rest), s);
      HeadingsAppend(EduBlock(e), Schools(rest));
      if s == School(Gpa) {
        assert GpaColumn(edus) == (if e.gpa != "" then [e.gpa] else []) + GpaColumn(rest);
      } else if s.School? {
        EduColumnCons(edus, s.eduField);
      }
    }
  }

  lemma EduColumnCons(edus: seq<Education>, f: EduField)
    requires edus != []
    ensures EduColumn(edus, f) == [EduGet(edus[0], f)] + EduColumn(edus[1..], f)
  {
  }

  lemma CertificationsValues(c: string, s: Slot)
    ensures Values(CertificationsSection(c), s) == if s == Scalar(Certifications) && c != "" then [c] else []
    ensures Headings(CertificationsSection(c)) == if c != "" then [CERTIFICATIONS_TITLE] else []
  {
    if c != "" {
      SectionValues(CERTIFICATIONS_TITLE, Paragraph(Certifications, c), s);
      ParagraphValues(Certifications, c, s);
    }
  }

  lemma SummarySectionValues(m: FormState, s: Slot)
    ensures Values(SummarySection(m), s) == if s == Scalar(Summary) then [m.summary] else []
    ensures Headings(SummarySection(m)) == [SUMMARY_TITLE]
  {
    SectionValues(SUMMARY_TITLE, Paragraph(Summary, m.summary), s);
    ParagraphValues(Summary, m.summary, s);
  }

  lemma ExperienceSectionValues(m: FormState, s: Slot)
    ensures Values(ExperienceSection(m), s) == if s.Job? then ExpColumn(m.experience, s.expField) else []
    ensures Headings(ExperienceSection(m)) == [EXPERIENCE_TITLE]
  {
    SectionValues(EXPERIENCE_TITLE, Jobs(m.experience), s);
    JobsValues(m.experience, s);
  }

  lemma EducationSectionValues(m: FormState, s: Slot)
    ensures Values(EducationSection(m), s)
         == if s == School(Gpa) then GpaColumn(m.education)
            else if s.School? then EduColumn(m.education, s.eduField)
            else []
    ensures Headings(EducationSection(m)) == [EDUCATION_TITLE]
  {
    SectionValues(EDUCATION_TITLE, Schools(m.education), s);
    SchoolsValues(m.education, s);
  }

  lemma SkillsSectionValues(m: FormState, s: Slot)
    ensures Values(SkillsSection(m), s) == if s == Scalar(Skills) then [m.skills] else []
    ensures Headings(SkillsSection(m)) == [SKILLS_TITLE]
  {
    SectionValues(SKILLS_TITLE, Paragraph(Skills, m.skills), s);
    ParagraphValues(Skills, m.skills, s);
  }

  /** Four one-heading parts followed by a last part. */
  lemma FourThenRest(h: seq<string>, a: seq<string>, b: seq<string>, c: seq<string>, d: seq<string>, e: seq<string>,
                     ta: string, tb: string, tc: string, td: string)
    requires h == a + b + c + d + e
    requires a == [ta] && b == [tb] && c == [tc] && d == [td]
    ensures h == [ta, tb, tc, td] + e
  {
  }

  /** The section headings, in their fixed order; only the certifications heading is optional. */
  lemma SectionsHeadings(m: FormState)
    ensures Headings(Sections(m))
         == [SUMMARY_TITLE, EXPERIENCE_TITLE, EDUCATION_TITLE, SKILLS_TITLE]
            + (if m.certifications != "" then [CERTIFICATIONS_TITLE] else [])
  {
    var s := PageTitle;
    Append5(SummarySection(m), ExperienceSection(m), EducationSection(m), SkillsSection(m),
            CertificationsSection(m.certifications), s);
    SummarySectionValues(m, s);
    ExperienceSectionValues(m, s);
    EducationSectionValues(m, s);
    SkillsSectionValues(m, s);
    CertificationsValues(m.certifications, s);
    FourThenRest(Headings(Sections(m)),
      Headings(SummarySection(m)), Headings(ExperienceSection(m)), Headings(EducationSection(m)),
      Headings(SkillsSection(m)), Headings(CertificationsSection(m.certifications)),
      SUMMARY_TITLE, EXPERIENCE_TITLE, EDUCATION_TITLE, SKILLS_TITLE);
  }

  /** The sections hold the summary, one block per entry, the skills and the optional certifications. */
  lemma SectionsValues(m: FormState, s: Slot)
    ensures Values(Sections(m), s)
         == match s
            case Scalar(f) =>
              if f == Summary then [m.summary]
              else if f == Skills then [m.skills]
              else if f == Certifications && m.certifications != "" then [m.certifications]
              else []
            case Job(f) => ExpColumn(m.experience, f)
            case School(f) => if f == Gpa then GpaColumn(m.education) else EduColumn(m.education, f)
            case _ => []
  {
    Append5(SummarySection(m), ExperienceSection(m), EducationSection(m), SkillsSection(m),
            CertificationsSection(m.certifications), s);
    SummarySectionValues(m, s);
    ExperienceSectionValues(m, s);
    EducationSectionValues(m, s);
    SkillsSectionValues(m, s);
    CertificationsValues(m.certifications, s);
    var k := match s
      case Scalar(f) => if f == Summary then 0 else if f == Skills then 3 else 4
      case Job(_) => 1
      case School(_) => 2
      case _ => 4;
    OnlyPart(Values(Sections(m), s),
      Values(SummarySection(m), s), Values(ExperienceSection(m), s), Values(EducationSection(m), s),
      Values(SkillsSection(m), s), Values(CertificationsSection(m.certifications), s), k);
  }

  // ---------------------------------------------------------------------------
  // Lemmas: the whole page

  /** The page's values, part by part: the title, the header parts and the sections. */
  lemma SerializeParts(m: FormState, photo: Option<string>, s: Slot)
    ensures Values(Serialize(m, photo), s)
         == Values(Preamble(m), s) + Values(PhotoImage(photo), s) + Values(Identity(m), s)
            + Values(LinkedInLine(m.linkedin), s) + Values(Sections(m), s)
    ensures Headings(Serialize(m, photo)) == Headings(Sections(m))
  {
    Append4(Preamble(m), Header(m, photo), Sections(m), [Lit(DocumentEnd)], s);
    LitValues(DocumentEnd, s);
    PreambleValues(m, s);
    HeaderValues(m, photo, s);
    HeaderInside(Values(Serialize(m, photo), s), Values(Preamble(m), s), Values(Header(m, photo), s),
      Values(PhotoImage(photo), s), Values(Identity(m), s), Values(LinkedInLine(m.linkedin), s),
      Values(Sections(m), s), Values([Lit(DocumentEnd)], s));
    OnlyPart4(Headings(Serialize(m, photo)), Headings(Preamble(m)), Headings(Header(m, photo)),
      Headings(Sections(m)), Headings([Lit(DocumentEnd)]), 2);
  }

  /** The header's three parts sit between the preamble and the sections. */
  lemma HeaderInside(v: seq<string>, a: seq<string>, h: seq<string>, p: seq<string>, i: seq<string>, l: seq<string>,
                     c: seq<string>, z: seq<string>)
    requires v == a + h + c + z && h == p + i + l && z == []
    ensures v == a + p + i + l + c
  {
  }


  /** The page holds, slot by slot, exactly the values of the reference layout, in order. */
  lemma SerializeValues(m: FormState, photo: Option<string>, s: Slot)
    ensures Values(Serialize(m, photo), s) == Expected(m, photo, s)
  {
    match s
    case PageTitle => TitleSlot(m, photo);
    case PhotoSrc => PhotoSlot(m, photo);
    case Scalar(f) =>
      if f == LinkedIn {
        LinkedInSlot(m, photo);
        ExpectedHeaderKey(m, photo, f);
      } else if InHeader(f) {
        IdentitySlot(m, photo, f);
        ExpectedHeaderKey(m, photo, f);
      } else {
        SectionSlot(m, photo, s);
      }
    case Job(_) => SectionSlot(m, photo, s);
    case School(_) => SectionSlot(m, photo, s);
  }

  /** In the reference layout, a header key is shown once, unless it is an empty LinkedIn value. */
  lemma ExpectedHeaderKey(m: FormState, photo: Option<string>, f: Field)
    requires InHeader(f)
    ensures Expected(m, photo, Scalar(f)) == if f == LinkedIn && m.linkedin == "" then [] else [Get(m, f)]
  {
  }

  /** The full name is the page title, and the title holds nothing else. */
  lemma TitleSlot(m: FormState, photo: Option<string>)
    ensures Values(Serialize(m, photo), PageTitle) == Expected(m, photo, PageTitle) == [m.fullName]
  {
    var s := PageTitle;
    SerializeParts(m, photo, s);
    PreambleValues(m, s);
    PhotoImageValues(photo, s);
    IdentityValues(m, s);
    LinkedInLineValues(m.linkedin, s);
    SectionsValues(m, s);
    OnlyPart(Values(Serialize(m, photo), s), Values(Preamble(m), s), Values(PhotoImage(photo), s),
      Values(Identity(m), s), Values(LinkedInLine(m.linkedin), s), Values(Sections(m), s), 0);
  }

  /** The portrait's source is the photo, present only when a photo is set. */
  lemma PhotoSlot(m: FormState, photo: Option<string>)
    ensures Values(Serialize(m, photo), PhotoSrc) == Expected(m, photo, PhotoSrc)
    ensures Expected(m, photo, PhotoSrc) == if HasPhoto(photo) then [photo.value] else []
  {
    var s := PhotoSrc;
    SerializeParts(m, photo, s);
    PreambleValues(m, s);
    PhotoImageValues(photo, s);
    IdentityValues(m, s);
    LinkedInLineValues(m.linkedin, s);
    SectionsValues(m, s);
    OnlyPart(Values(Serialize(m, photo), s), Values(Preamble(m), s), Values(PhotoImage(photo), s),
      Values(Identity(m), s), Values(LinkedInLine(m.linkedin), s), Values(Sections(m), s), 1);
  }

  /** The LinkedIn value appears once, in the header, when it is non-empty. */
  lemma LinkedInSlot(m: FormState, photo: Option<string>)
    ensures Values(Serialize(m, photo), Scalar(LinkedIn)) == if m.linkedin != "" then [m.linkedin] else []
  {
    var s := Scalar(LinkedIn);
    SerializeParts(m, photo, s);
    PreambleValues(m, s);
    PhotoImageValues(photo, s);
    IdentityValues(m, s);
    LinkedInLineValues(m.linkedin, s);
    SectionsValues(m, s);
    OnlyPart(Values(Serialize(m, photo), s), Values(Preamble(m), s), Values(PhotoImage(photo), s),
      Values(Identity(m), s), Values(LinkedInLine(m.linkedin), s), Values(Sections(m), s), 3);
  }

  /** A key of the name and contact lines is shown once, in the header. */
  lemma IdentitySlot(m: FormState, photo: Option<string>, f: Field)
    requires InHeader(f) && f != LinkedIn
    ensures Values(Serialize(m, photo), Scalar(f)) == [Get(m, f)]
  {
    var s := Scalar(f);
    SerializeParts(m, photo, s);
    OutsideIdentity(m, photo, f);
    IdentityExpected(m, f);
    OnlyPart(Values(Serialize(m, photo), s), Values(Preamble(m), s), Values(PhotoImage(photo), s),
      Values(Identity(m), s), Values(LinkedInLine(m.linkedin), s), Values(Sections(m), s), 2);
  }

  /** Only the name and contact lines hold a key of the name and contact lines. */
  lemma OutsideIdentity(m: FormState, photo: Option<string>, f: Field)
    requires InHeader(f) && f != LinkedIn
    ensures Values(Preamble(m), Scalar(f)) == [] && Values(PhotoImage(photo), Scalar(f)) == []
    ensures Values(LinkedInLine(m.linkedin), Scalar(f)) == [] && Values(Sections(m), Scalar(f)) == []
  {
    PreambleValues(m, Scalar(f));
    PhotoImageValues(photo, Scalar(f));
    LinkedInLineValues(m.linkedin, Scalar(f));
    SectionsValues(m, Scalar(f));
  }

  lemma IdentityExpected(m: FormState, f: Field)
    requires InHeader(f) && f != LinkedIn
    ensures Values(Identity(m), Scalar(f)) == [Get(m, f)]
  {
    IdentityValues(m, Scalar(f));
  }

  /** A key or entry field shown in a section appears only there. */
  lemma SectionSlot(m: FormState, photo: Option<string>, s: Slot)
    requires s.Job? || s.School? || (s.Scalar? && !InHeader(s.field))
    ensures Values(Serialize(m, photo), s) == Expected(m, photo, s)
  {
    SerializeParts(m, photo, s);
    OutsideHeader(m, photo, s);
    SectionsExpected(m, photo, s);
    OnlyPart(Values(Serialize(m, photo), s), Values(Preamble(m), s), Values(PhotoImage(photo), s),
      Values(Identity(m), s), Values(LinkedInLine(m.linkedin), s), Values(Sections(m), s), 4);
  }

  /** The preamble and the header hold no key or entry field that is shown in a section. */
  lemma OutsideHeader(m: FormState, photo: Option<string>, s: Slot)
    requires s.Job? || s.School? || (s.Scalar? && !InHeader(s.field))
    ensures Values(Preamble(m), s) == [] && Values(PhotoImage(photo), s) == []
    ensures Values(Identity(m), s) == [] && Values(LinkedInLine(m.linkedin), s) == []
  {
    assert s != PageTitle && s != PhotoSrc && s != Scalar(LinkedIn);
    assert s != Scalar(FullName) && s != Scalar(Title) && s != Scalar(Email) && s != Scalar(Phone) && s != Scalar(Location);
    PreambleValues(m, s);
    PhotoImageValues(photo, s);
    IdentityValues(m, s);
    LinkedInLineValues(m.linkedin, s);
  }

  lemma SectionsExpected(m: FormState, photo: Option<string>, s: Slot)
    requires s.Job? || s.School? || (s.Scalar? && !InHeader(s.field))
    ensures Values(Sections(m), s) == Expected(m, photo, s)
  {
    SectionsValues(m, s);
  }



  /** The sections always come in the same order; only the certifications section is optional. */
  lemma SectionOrder(m: FormState, photo: Option<string>)
    ensures Headings(Serialize(m, photo))
         == [SUMMARY_TITLE, EXPERIENCE_TITLE, EDUCATION_TITLE, SKILLS_TITLE]
            + (if m.certifications != "" then [CERTIFICATIONS_TITLE] else [])
  {
    SerializeParts(m, photo, PageTitle);
    SectionsHeadings(m);
  }

  /** When every entry has a GPA, the GPA lines are one per entry, in list order. */
  lemma {:induction false} GpaColumnFilled(edus: seq<Education>)
    requires forall i :: 0 <= i < |edus| ==> edus[i].gpa != ""
    ensures GpaColumn(edus) == EduColumn(edus, Gpa)
  {
    if edus != [] {
      GpaColumnFilled(edus[1..]);
      EduColumnCons(edus, Gpa);
    }
  }

  /** When every entry has a GPA, the page has one GPA line per entry, in list order. */
  lemma GpaLinesFilled(m: FormState, photo: Option<string>)
    requires forall i :: 0 <= i < |m.education| ==> m.education[i].gpa != ""
    ensures Values(Serialize(m, photo), School(Gpa)) == EduColumn(m.education, Gpa)
  {
    GpaColumnFilled(m.education);
    SerializeValues(m, photo, School(Gpa));
  }

  /** The portrait appears exactly when a photo is set, once, with exactly the given data URI as src. */
  lemma PhotoShown(m: FormState, photo: Option<string>)
    ensures Values(Serialize(m, photo), PhotoSrc) == Expected(m, photo, PhotoSrc)
    ensures Expected(m, photo, PhotoSrc) == if HasPhoto(photo) then [photo.value] else []
  {
    SerializeValues(m, photo, PhotoSrc);
  }

  /** The LinkedIn line appears exactly when the LinkedIn value is non-empty. */
  lemma LinkedInShown(m: FormState, photo: Option<string>)
    ensures Values(Serialize(m, photo), Scalar(LinkedIn)) == if m.linkedin != "" then [m.linkedin] else []
  {
    SerializeValues(m, photo, Scalar(LinkedIn));
  }

  /** The certifications section, heading and text, appears exactly when the certifications are non-empty. */
  lemma CertificationsShown(m: FormState, photo: Option<string>)
    ensures Values(Serialize(m, photo), Scalar(Certifications))
         == if m.certifications != "" then [m.certifications] else []
    ensures (CERTIFICATIONS_TITLE in Headings(Serialize(m, photo))) <==> m.certifications != ""
  {
    SerializeValues(m, photo, Scalar(Certifications));
    SectionOrder(m, photo);
  }
}
