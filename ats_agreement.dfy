/** The two ATS exporters side by side: they emit the same section headings and, after
    their headers, the same texts in the same order. */
module AtsAgreement {
  import opened Js
  import opened Strings
  import opened ResumeModel
  import opened SkillGroups
  import opened AtsContent
  import P = PdfLayout
  import A = AtsPdf
  import D = AtsDocx
  import X = DocxModel

  /** Both exporters produce the same heading sequence. */
  lemma SameHeadings(f: DateFormat, r: Resume)
    ensures A.HeadingTitles(A.AtsPdfProgram(f, r)) == D.DocxHeadings(D.AtsDocxProgram(f, r))
  {
    A.AtsPdfHeadings(f, r);
    D.AtsDocxHeadings(f, r);
  }

  // ---- visible texts ----

  /** `acc` followed by `t`, unless `t` is empty. */
  function Keep(acc: seq<string>, t: string): (r: seq<string>)
    ensures t == "" ==> r == acc
    ensures t != "" ==> r == acc + [t]
  {
    if t == "" then acc else acc + [t]
  }

  /** The non-empty texts the PDF calls draw, headings included, in order. */
  function PdfTexts(calls: seq<P.Block>): seq<string>
    decreases |calls|
  {
    if calls == [] then []
    else
      var init := PdfTexts(calls[..|calls| - 1]);
      match calls[|calls| - 1]
      case Line(text, _, _, _, _) => Keep(init, text)
      case Gap(_) => init
      case Heading(title) => Keep(init, title)
  }

  /** The non-empty texts of the DOCX paragraphs, in order. */
  function DocxTexts(ps: seq<X.Paragraph>): seq<string>
    decreases |ps|
  {
    if ps == [] then [] else Keep(DocxTexts(ps[..|ps| - 1]), X.ParagraphText(ps[|ps| - 1]))
  }

  lemma PdfLine(s: seq<P.Block>, text: string, size: nat, style: P.Style, align: P.Align, color: string)
    ensures PdfTexts(s + [P.Line(text, size, style, align, color)]) == Keep(PdfTexts(s), text)
  {
    assert (s + [P.Line(text, size, style, align, color)])[..|s|] == s;
  }

  lemma PdfGap(s: seq<P.Block>, points: nat)
    ensures PdfTexts(s + [P.Gap(points)]) == PdfTexts(s)
  {
    assert (s + [P.Gap(points)])[..|s|] == s;
  }

  lemma PdfHeading(s: seq<P.Block>, title: string)
    ensures PdfTexts(s + [P.Heading(title)]) == Keep(PdfTexts(s), title)
  {
    assert (s + [P.Heading(title)])[..|s|] == s;
  }

  lemma DocxPara(s: seq<X.Paragraph>, p: X.Paragraph)
    ensures DocxTexts(s + [p]) == Keep(DocxTexts(s), X.ParagraphText(p))
  {
    assert (s + [p])[..|s|] == s;
  }

  lemma DocxText(s: seq<X.Paragraph>, text: string, after: nat)
    ensures DocxTexts(s + [X.TextPara(text, after)]) == Keep(DocxTexts(s), text)
  {
    DocxPara(s, X.TextPara(text, after));
    X.RunsTextSingle(X.Plain(text));
  }

  lemma DocxRun(s: seq<X.Paragraph>, run: X.Run, after: nat)
    ensures DocxTexts(s + [X.RunPara(run, after)]) == Keep(DocxTexts(s), run.text)
  {
    DocxPara(s, X.RunPara(run, after));
    X.RunsTextSingle(run);
  }

  lemma DocxHeading(s: seq<X.Paragraph>, title: string)
    ensures DocxTexts(s + [D.SectionHeading(title)]) == Keep(DocxTexts(s), title)
  {
    DocxPara(s, D.SectionHeading(title));
    X.RunsTextSingle(X.Plain(title));
  }

  // ---- the texts of the body, shared by both formats ----

  function AchievementTexts(acc: seq<string>, items: seq<string>): seq<string>
    decreases |items|
  {
    if items == [] then acc else Keep(AchievementTexts(acc, items[..|items| - 1]), Bullet + items[|items| - 1])
  }

  function ExperienceEntryTexts(acc: seq<string>, f: DateFormat, e: Experience): seq<string> {
    var a0 := Keep(acc, Text(e.position));
    var a1 := Keep(a0, CompanyLine(e));
    var a2 := Keep(a1, ExperienceDates(f, e));
    var a3 := if Truthy(e.description) then Keep(a2, Bullet + e.description.s) else a2;
    if e.achievements.AchList? then AchievementTexts(a3, e.achievements.items) else a3
  }

  function ExperienceTexts(acc: seq<string>, f: DateFormat, xs: seq<Experience>): seq<string>
    decreases |xs|
  {
    if xs == [] then acc else ExperienceEntryTexts(ExperienceTexts(acc, f, xs[..|xs| - 1]), f, xs[|xs| - 1])
  }

  function ProjectEntryTexts(acc: seq<string>, f: DateFormat, p: Project): seq<string> {
    var a0 := Keep(acc, Text(p.name));
    var dates := ProjectDates(f, p);
    var a1 := if dates.Some? then Keep(a0, dates.value) else a0;
    var a2 := if Truthy(p.description) then Keep(a1, Bullet + p.description.s) else a1;
    if TechTruthy(p.technologies) then Keep(a2, Bullet + "Technologies: " + TechnologiesText(p.technologies)) else a2
  }

  function ProjectTexts(acc: seq<string>, f: DateFormat, xs: seq<Project>): seq<string>
    decreases |xs|
  {
    if xs == [] then acc else ProjectEntryTexts(ProjectTexts(acc, f, xs[..|xs| - 1]), f, xs[|xs| - 1])
  }

  function EducationEntryTexts(acc: seq<string>, f: DateFormat, e: Education): seq<string> {
    var a0 := Keep(acc, DegreeText(e));
    var a1 := Keep(a0, InstitutionLine(e));
    var a2 := Keep(a1, EducationDates(f, e));
    if Truthy(e.gpa) then Keep(a2, "GPA: " + e.gpa.s) else a2
  }

  function EducationTexts(acc: seq<string>, f: DateFormat, xs: seq<Education>): seq<string>
    decreases |xs|
  {
    if xs == [] then acc else EducationEntryTexts(EducationTexts(acc, f, xs[..|xs| - 1]), f, xs[|xs| - 1])
  }

  function GroupTexts(acc: seq<string>, gs: seq<CategoryGroup>): seq<string>
    decreases |gs|
  {
    if gs == [] then acc else Keep(GroupTexts(acc, gs[..|gs| - 1]), GroupLine(gs[|gs| - 1]))
  }

  function CertificationEntryTexts(acc: seq<string>, f: DateFormat, c: Certification): seq<string> {
    var a0 := Keep(acc, CertHeader(f, c));
    if Truthy(c.description) then Keep(a0, c.description.s) else a0
  }

  function CertificationTexts(acc: seq<string>, f: DateFormat, xs: seq<Certification>): seq<string>
    decreases |xs|
  {
    if xs == [] then acc else CertificationEntryTexts(CertificationTexts(acc, f, xs[..|xs| - 1]), f, xs[|xs| - 1])
  }

  function ReferenceEntryTexts(acc: seq<string>, r: Reference): seq<string> {
    var a0 := Keep(acc, Text(r.name));
    var a1 := if Truthy(r.position) then Keep(a0, r.position.s) else a0;
    var a2 := if Truthy(r.company) then Keep(a1, r.company.s) else a1;
    var a3 := if Truthy(r.phone) then Keep(a2, "Tel: " + r.phone.s) else a2;
    if Truthy(r.email) then Keep(a3, "Email: " + r.email.s) else a3
  }

  function ReferenceTexts(acc: seq<string>, xs: seq<Reference>): seq<string>
    decreases |xs|
  {
    if xs == [] then acc else ReferenceEntryTexts(ReferenceTexts(acc, xs[..|xs| - 1]), xs[|xs| - 1])
  }

  function SummaryTexts(acc: seq<string>, r: Resume): seq<string> {
    if Truthy(r.summary) then Keep(Keep(acc, SummaryTitle), r.summary.s) else acc
  }

  function CompetenciesTexts(acc: seq<string>, r: Resume): seq<string> {
    if |r.skills| > 0 then Keep(Keep(acc, CompetenciesTitle), Competencies(r.skills)) else acc
  }

  function ExperienceSectionTexts(acc: seq<string>, f: DateFormat, r: Resume): seq<string> {
    if |r.experience| > 0 || |r.projects| > 0 then
      ProjectTexts(ExperienceTexts(Keep(acc, ExperienceTitle(r.experienceType)), f, r.experience), f, r.projects)
    else acc
  }

  function EducationSectionTexts(acc: seq<string>, f: DateFormat, r: Resume): seq<string> {
    if |r.education| > 0 then EducationTexts(Keep(acc, EducationTitle), f, r.education) else acc
  }

  function TechnicalTexts(acc: seq<string>, r: Resume): seq<string> {
    var technical := TechnicalSkills(r.skills);
    if |technical| > 0 then GroupTexts(Keep(acc, TechnicalSkillsTitle), Group(technical)) else acc
  }

  function SoftTexts(acc: seq<string>, r: Resume): seq<string> {
    if |SoftSkills(r.skills)| > 0 then Keep(Keep(acc, SoftSkillsTitle), SoftSkillsLine(r.skills)) else acc
  }

  function CertificationSectionTexts(acc: seq<string>, f: DateFormat, r: Resume): seq<string> {
    if |r.certifications| > 0 then CertificationTexts(Keep(acc, CertificationsTitle), f, r.certifications) else acc
  }

  function LanguageTexts(acc: seq<string>, r: Resume): seq<string> {
    if |r.languages| > 0 then Keep(Keep(acc, LanguagesTitle), LanguageList(r.languages)) else acc
  }

  function ReferenceSectionTexts(acc: seq<string>, r: Resume): seq<string> {
    if |r.references| > 0 then ReferenceTexts(Keep(acc, ReferencesTitle), r.references) else acc
  }

  /** The texts of every section after the header, in the fixed section order. */
  function BodyTexts(acc: seq<string>, f: DateFormat, r: Resume): seq<string> {
    var a1 := CompetenciesTexts(SummaryTexts(acc, r), r);
    var a2 := EducationSectionTexts(ExperienceSectionTexts(a1, f, r), f, r);
    var a3 := SoftTexts(TechnicalTexts(a2, r), r);
    ReferenceSectionTexts(LanguageTexts(CertificationSectionTexts(a3, f, r), r), r)
  }

  // ---- the PDF side ----

  lemma {:induction false} PdfAchievements(acc: seq<P.Block>, items: seq<string>)
    ensures PdfTexts(A.AchievementCalls(acc, items)) == AchievementTexts(PdfTexts(acc), items)
    decreases |items|
  {
    if items != [] {
      var prev := A.AchievementCalls(acc, items[..|items| - 1]);
      PdfAchievements(acc, items[..|items| - 1]);
      PdfLine(prev, Bullet + items[|items| - 1], 10, P.Normal, P.Left, A.Grey);
      PdfGap(prev + [P.Line(Bullet + items[|items| - 1], 10, P.Normal, P.Left, A.Grey)], 3);
    }
  }

  lemma {:induction false} PdfExperienceEntry(acc: seq<P.Block>, f: DateFormat, e: Experience, index: nat)
    ensures PdfTexts(A.ExperienceEntry(acc, f, e, index)) == ExperienceEntryTexts(PdfTexts(acc), f, e)
  {
    var a0 := acc;
    if index > 0 {
      PdfGap(acc, 12);
      a0 := acc + [P.Gap(12)];
    }
    var l1 := P.Line(Text(e.position), 11, P.Bold, P.Left, A.Dark);
    PdfLine(a0, l1.text, l1.size, l1.style, l1.align, l1.color);
    PdfGap(a0 + [l1], 3);
    var a1 := a0 + [l1] + [P.Gap(3)];
    var company := CompanyLine(e);
    var a2 := a1;
    if company != "" {
      var l2 := P.Line(company, 10, P.Normal, P.Left, A.Grey);
      PdfLine(a1, l2.text, l2.size, l2.style, l2.align, l2.color);
      PdfGap(a1 + [l2], 3);
      a2 := a1 + [l2] + [P.Gap(3)];
    }
    var l3 := P.Line(ExperienceDates(f, e), 9, P.Italic, P.Left, A.Light);
    PdfLine(a2, l3.text, l3.size, l3.style, l3.align, l3.color);
    PdfGap(a2 + [l3], 5);
    var a3 := a2 + [l3] + [P.Gap(5)];
    var a4 := a3;
    if Truthy(e.description) {
      var l4 := P.Line(Bullet + e.description.s, 10, P.Normal, P.Left, A.Grey);
      PdfLine(a3, l4.text, l4.size, l4.style, l4.align, l4.color);
      PdfGap(a3 + [l4], 3);
      a4 := a3 + [l4] + [P.Gap(3)];
    }
    if e.achievements.AchList? {
      PdfAchievements(a4, e.achievements.items);
    }
  }

  lemma {:induction false} PdfExperience(acc: seq<P.Block>, f: DateFormat, xs: seq<Experience>)
    ensures PdfTexts(A.ExperienceCalls(acc, f, xs)) == ExperienceTexts(PdfTexts(acc), f, xs)
    decreases |xs|
  {
    if xs != [] {
      PdfExperience(acc, f, xs[..|xs| - 1]);
      PdfExperienceEntry(A.ExperienceCalls(acc, f, xs[..|xs| - 1]), f, xs[|xs| - 1], |xs| - 1);
    }
  }

  lemma {:induction false} PdfProjectEntry(acc: seq<P.Block>, f: DateFormat, p: Project, gap: bool)
    ensures PdfTexts(A.ProjectEntry(acc, f, p, gap)) == ProjectEntryTexts(PdfTexts(acc), f, p)
  {
    var a0 := acc;
    if gap {
      PdfGap(acc, 12);
      a0 := acc + [P.Gap(12)];
    }
    var l1 := P.Line(Text(p.name), 11, P.Bold, P.Left, A.Dark);
    PdfLine(a0, l1.text, l1.size, l1.style, l1.align, l1.color);
    PdfGap(a0 + [l1], 3);
    var a1 := a0 + [l1] + [P.Gap(3)];
    var dates := ProjectDates(f, p);
    var a2 := a1;
    if dates.Some? {
      var l2 := P.Line(dates.value, 9, P.Italic, P.Left, A.Light);
      PdfLine(a1, l2.text, l2.size, l2.style, l2.align, l2.color);
      PdfGap(a1 + [l2], 5);
      a2 := a1 + [l2] + [P.Gap(5)];
    }
    var a3 := a2;
    if Truthy(p.description) {
      var l3 := P.Line(Bullet + p.description.s, 10, P.Normal, P.Left, A.Grey);
      PdfLine(a2, l3.text, l3.size, l3.style, l3.align, l3.color);
      PdfGap(a2 + [l3], 3);
      a3 := a2 + [l3] + [P.Gap(3)];
    }
    if TechTruthy(p.technologies) {
      var l4 := P.Line(Bullet + "Technologies: " + TechnologiesText(p.technologies), 10, P.Normal, P.Left, A.Grey);
      PdfLine(a3, l4.text, l4.size, l4.style, l4.align, l4.color);
      PdfGap(a3 + [l4], 3);
    }
  }

  lemma {:induction false} PdfProjects(acc: seq<P.Block>, f: DateFormat, xs: seq<Project>, afterExperience: bool)
    ensures PdfTexts(A.ProjectCalls(acc, f, xs, afterExperience)) == ProjectTexts(PdfTexts(acc), f, xs)
    decreases |xs|
  {
    if xs != [] {
      PdfProjects(acc, f, xs[..|xs| - 1], afterExperience);
      PdfProjectEntry(A.ProjectCalls(acc, f, xs[..|xs| - 1], afterExperience), f, xs[|xs| - 1], |xs| - 1 > 0 || afterExperience);
    }
  }

  lemma {:induction false} PdfEducationEntry(acc: seq<P.Block>, f: DateFormat, e: Education, index: nat)
    ensures PdfTexts(A.EducationEntry(acc, f, e, index)) == EducationEntryTexts(PdfTexts(acc), f, e)
  {
    var a0 := acc;
    if index > 0 {
      PdfGap(acc, 10);
      a0 := acc + [P.Gap(10)];
    }
    var l1 := P.Line(DegreeText(e), 11, P.Bold, P.Left, A.Dark);
    PdfLine(a0, l1.text, l1.size, l1.style, l1.align, l1.color);
    PdfGap(a0 + [l1], 3);
    var a1 := a0 + [l1] + [P.Gap(3)];
    var institution := InstitutionLine(e);
    var a2 := a1;
    if institution != "" {
      var l2 := P.Line(institution, 10, P.Normal, P.Left, A.Grey);
      PdfLine(a1, l2.text, l2.size, l2.style, l2.align, l2.color);
      PdfGap(a1 + [l2], 3);
      a2 := a1 + [l2] + [P.Gap(3)];
    }
    var l3 := P.Line(EducationDates(f, e), 9, P.Normal, P.Left, A.Light);
    PdfLine(a2, l3.text, l3.size, l3.style, l3.align, l3.color);
    var a3 := a2 + [l3];
    if Truthy(e.gpa) {
      var l4 := P.Line("GPA: " + e.gpa.s, 9, P.Normal, P.Left, A.Grey);
      PdfGap(a3, 3);
      PdfLine(a3 + [P.Gap(3)], l4.text, l4.size, l4.style, l4.align, l4.color);
    }
  }

  lemma {:induction false} PdfEducation(acc: seq<P.Block>, f: DateFormat, xs: seq<Education>)
    ensures PdfTexts(A.EducationCalls(acc, f, xs)) == EducationTexts(PdfTexts(acc), f, xs)
    decreases |xs|
  {
    if xs != [] {
      PdfEducation(acc, f, xs[..|xs| - 1]);
      PdfEducationEntry(A.EducationCalls(acc, f, xs[..|xs| - 1]), f, xs[|xs| - 1], |xs| - 1);
    }
  }

  lemma {:induction false} PdfGroups(acc: seq<P.Block>, gs: seq<CategoryGroup>)
    ensures PdfTexts(A.GroupCalls(acc, gs)) == GroupTexts(PdfTexts(acc), gs)
    decreases |gs|
  {
    if gs != [] {
      var prev := A.GroupCalls(acc, gs[..|gs| - 1]);
      PdfGroups(acc, gs[..|gs| - 1]);
      var l := P.Line(GroupLine(gs[|gs| - 1]), 10, P.Normal, P.Left, A.Grey);
      PdfLine(prev, l.text, l.size, l.style, l.align, l.color);
      PdfGap(prev + [l], 5);
    }
  }

  lemma {:induction false} PdfCertifications(acc: seq<P.Block>, f: DateFormat, xs: seq<Certification>)
    ensures PdfTexts(A.CertificationCalls(acc, f, xs)) == CertificationTexts(PdfTexts(acc), f, xs)
    decreases |xs|
  {
    if xs != [] {
      var c := xs[|xs| - 1];
      var prev := A.CertificationCalls(acc, f, xs[..|xs| - 1]);
      PdfCertifications(acc, f, xs[..|xs| - 1]);
      var a0 := prev;
      if |xs| - 1 > 0 {
        PdfGap(prev, 8);
        a0 := prev + [P.Gap(8)];
      }
      var l1 := P.Line(CertHeader(f, c), 10, P.Bold, P.Left, A.Ink);
      PdfLine(a0, l1.text, l1.size, l1.style, l1.align, l1.color);
      if Truthy(c.description) {
        var l2 := P.Line(c.description.s, 9, P.Normal, P.Left, A.Grey);
        PdfGap(a0 + [l1], 3);
        PdfLine(a0 + [l1] + [P.Gap(3)], l2.text, l2.size, l2.style, l2.align, l2.color);
      }
    }
  }

  lemma {:induction false} PdfReferenceEntry(acc: seq<P.Block>, r: Reference, index: nat)
    ensures PdfTexts(A.ReferenceEntry(acc, r, index)) == ReferenceEntryTexts(PdfTexts(acc), r)
  {
    var a0 := acc;
    if index > 0 {
      PdfGap(acc, 10);
      a0 := acc + [P.Gap(10)];
    }
    var l1 := P.Line(Text(r.name), 10, P.Bold, P.Left, A.Ink);
    PdfLine(a0, l1.text, l1.size, l1.style, l1.align, l1.color);
    PdfGap(a0 + [l1], 3);
    var a1 := a0 + [l1] + [P.Gap(3)];
    var a2 := a1;
    if Truthy(r.position) {
      var l2 := P.Line(r.position.s, 9, P.Normal, P.Left, A.Grey);
      PdfLine(a1, l2.text, l2.size, l2.style, l2.align, l2.color);
      a2 := a1 + [l2];
    }
    var a3 := a2;
    if Truthy(r.company) {
      var l3 := P.Line(r.company.s, 9, P.Normal, P.Left, A.Grey);
      PdfGap(a2, 2);
      PdfLine(a2 + [P.Gap(2)], l3.text, l3.size, l3.style, l3.align, l3.color);
      a3 := a2 + [P.Gap(2)] + [l3];
    }
    var a4 := a3;
    if Truthy(r.phone) {
      var l4 := P.Line("Tel: " + r.phone.s, 9, P.Normal, P.Left, A.Grey);
      PdfGap(a3, 2);
      PdfLine(a3 + [P.Gap(2)], l4.text, l4.size, l4.style, l4.align, l4.color);
      a4 := a3 + [P.Gap(2)] + [l4];
    }
    if Truthy(r.email) {
      var l5 := P.Line("Email: " + r.email.s, 9, P.Normal, P.Left, A.Grey);
      PdfGap(a4, 2);
      PdfLine(a4 + [P.Gap(2)], l5.text, l5.size, l5.style, l5.align, l5.color);
    }
  }

  lemma {:induction false} PdfReferences(acc: seq<P.Block>, xs: seq<Reference>)
    ensures PdfTexts(A.ReferenceCalls(acc, xs)) == ReferenceTexts(PdfTexts(acc), xs)
    decreases |xs|
  {
    if xs != [] {
      PdfReferences(acc, xs[..|xs| - 1]);
      PdfReferenceEntry(A.ReferenceCalls(acc, xs[..|xs| - 1]), xs[|xs| - 1], |xs| - 1);
    }
  }

  lemma PdfSummary(acc: seq<P.Block>, r: Resume)
    ensures PdfTexts(A.SummarySection(acc, r)) == SummaryTexts(PdfTexts(acc), r)
  {
    if Truthy(r.summary) {
      PdfHeading(acc, SummaryTitle);
      PdfLine(acc + [P.Heading(SummaryTitle)], r.summary.s, 10, P.Normal, P.Left, A.Ink);
    }
  }

  lemma PdfCompetencies(acc: seq<P.Block>, r: Resume)
    ensures PdfTexts(A.CompetenciesSection(acc, r)) == CompetenciesTexts(PdfTexts(acc), r)
  {
    if |r.skills| > 0 {
      PdfHeading(acc, CompetenciesTitle);
      PdfLine(acc + [P.Heading(CompetenciesTitle)], Competencies(r.skills), 10, P.Normal, P.Left, A.Ink);
    }
  }

  lemma PdfExperienceSection(acc: seq<P.Block>, f: DateFormat, r: Resume)
    ensures PdfTexts(A.ExperienceSection(acc, f, r)) == ExperienceSectionTexts(PdfTexts(acc), f, r)
  {
    if |r.experience| > 0 || |r.projects| > 0 {
      var hd := acc + [P.Heading(ExperienceTitle(r.experienceType))];
      PdfHeading(acc, ExperienceTitle(r.experienceType));
      PdfExperience(hd, f, r.experience);
      PdfProjects(A.ExperienceCalls(hd, f, r.experience), f, r.projects, |r.experience| > 0);
    }
  }

  lemma PdfEducationSection(acc: seq<P.Block>, f: DateFormat, r: Resume)
    ensures PdfTexts(A.EducationSection(acc, f, r)) == EducationSectionTexts(PdfTexts(acc), f, r)
  {
    if |r.education| > 0 {
      PdfHeading(acc, EducationTitle);
      PdfEducation(acc + [P.Heading(EducationTitle)], f, r.education);
    }
  }

  lemma PdfTechnical(acc: seq<P.Block>, r: Resume)
    ensures PdfTexts(A.TechnicalSection(acc, r)) == TechnicalTexts(PdfTexts(acc), r)
  {
    if |TechnicalSkills(r.skills)| > 0 {
      PdfHeading(acc, TechnicalSkillsTitle);
      PdfGroups(acc + [P.Heading(TechnicalSkillsTitle)], Group(TechnicalSkills(r.skills)));
    }
  }

  lemma PdfSoft(acc: seq<P.Block>, r: Resume)
    ensures PdfTexts(A.SoftSection(acc, r)) == SoftTexts(PdfTexts(acc), r)
  {
    if |SoftSkills(r.skills)| > 0 {
      PdfHeading(acc, SoftSkillsTitle);
      PdfLine(acc + [P.Heading(SoftSkillsTitle)], SoftSkillsLine(r.skills), 10, P.Normal, P.Left, A.Grey);
    }
  }

  lemma PdfCertificationSection(acc: seq<P.Block>, f: DateFormat, r: Resume)
    ensures PdfTexts(A.CertificationSection(acc, f, r)) == CertificationSectionTexts(PdfTexts(acc), f, r)
  {
    if |r.certifications| > 0 {
      PdfHeading(acc, CertificationsTitle);
      PdfCertifications(acc + [P.Heading(CertificationsTitle)], f, r.certifications);
    }
  }

  lemma PdfLanguages(acc: seq<P.Block>, r: Resume)
    ensures PdfTexts(A.LanguageSection(acc, r)) == LanguageTexts(PdfTexts(acc), r)
  {
    if |r.languages| > 0 {
      PdfHeading(acc, LanguagesTitle);
      PdfLine(acc + [P.Heading(LanguagesTitle)], LanguageList(r.languages), 10, P.Normal, P.Left, A.Grey);
    }
  }

  lemma PdfReferenceSection(acc: seq<P.Block>, r: Resume)
    ensures PdfTexts(A.ReferenceSection(acc, r)) == ReferenceSectionTexts(PdfTexts(acc), r)
  {
    if |r.references| > 0 {
      PdfHeading(acc, ReferencesTitle);
      PdfReferences(acc + [P.Heading(ReferencesTitle)], r.references);
    }
  }

  /** Everything the ATS PDF draws after its header is the body text. */
  lemma PdfBody(f: DateFormat, r: Resume)
    ensures PdfTexts(A.AtsPdfProgram(f, r)) == BodyTexts(PdfTexts(A.HeaderSection([], r)), f, r)
  {
    var h := A.HeaderSection([], r);
    var a0 := A.SummarySection(h, r);
    PdfSummary(h, r);
    var a1 := A.CompetenciesSection(a0, r);
    PdfCompetencies(a0, r);
    var a2 := A.ExperienceSection(a1, f, r);
    PdfExperienceSection(a1, f, r);
    var a3 := A.EducationSection(a2, f, r);
    PdfEducationSection(a2, f, r);
    var a4 := A.TechnicalSection(a3, r);
    PdfTechnical(a3, r);
    var a5 := A.SoftSection(a4, r);
    PdfSoft(a4, r);
    var a6 := A.CertificationSection(a5, f, r);
    PdfCertificationSection(a5, f, r);
    var a7 := A.LanguageSection(a6, r);
    PdfLanguages(a6, r);
    PdfReferenceSection(a7, r);
  }

  // ---- the DOCX side ----

  lemma {:induction false} DocxAchievements(acc: seq<X.Paragraph>, items: seq<string>)
    ensures DocxTexts(D.AchievementParas(acc, items)) == AchievementTexts(DocxTexts(acc), items)
    decreases |items|
  {
    if items != [] {
      DocxAchievements(acc, items[..|items| - 1]);
      DocxText(D.AchievementParas(acc, items[..|items| - 1]), Bullet + items[|items| - 1], 50);
    }
  }

  lemma {:induction false} DocxExperienceEntry(acc: seq<X.Paragraph>, f: DateFormat, e: Experience)
    ensures DocxTexts(D.ExperienceEntryParas(acc, f, e)) == ExperienceEntryTexts(DocxTexts(acc), f, e)
  {
    var r0 := X.Run(Text(e.position), true, false, Some(22));
    DocxRun(acc, r0, 50);
    var a0 := acc + [X.RunPara(r0, 50)];
    var company := CompanyLine(e);
    var a1 := a0;
    if company != "" {
      DocxText(a0, company, 50);
      a1 := a0 + [X.TextPara(company, 50)];
    }
    var r2 := X.Run(ExperienceDates(f, e), false, true, Some(18));
    DocxRun(a1, r2, 100);
    var a2 := a1 + [X.RunPara(r2, 100)];
    var a3 := a2;
    if Truthy(e.description) {
      DocxText(a2, Bullet + e.description.s, 50);
      a3 := a2 + [X.TextPara(Bullet + e.description.s, 50)];
    }
    var a4 := a3;
    if e.achievements.AchList? {
      DocxAchievements(a3, e.achievements.items);
      a4 := D.AchievementParas(a3, e.achievements.items);
    }
    DocxText(a4, "", 150);
  }

  lemma {:induction false} DocxExperience(acc: seq<X.Paragraph>, f: DateFormat, xs: seq<Experience>)
    ensures DocxTexts(D.ExperienceParas(acc, f, xs)) == ExperienceTexts(DocxTexts(acc), f, xs)
    decreases |xs|
  {
    if xs != [] {
      DocxExperience(acc, f, xs[..|xs| - 1]);
      DocxExperienceEntry(D.ExperienceParas(acc, f, xs[..|xs| - 1]), f, xs[|xs| - 1]);
    }
  }

  lemma {:induction false} DocxProjectEntry(acc: seq<X.Paragraph>, f: DateFormat, p: Project)
    ensures DocxTexts(D.ProjectEntryParas(acc, f, p)) == ProjectEntryTexts(DocxTexts(acc), f, p)
  {
    var r0 := X.Run(Text(p.name), true, false, Some(22));
    DocxRun(acc, r0, 50);
    var a0 := acc + [X.RunPara(r0, 50)];
    var dates := ProjectDates(f, p);
    var a1 := a0;
    if dates.Some? {
      var r1 := X.Run(dates.value, false, true, Some(18));
      DocxRun(a0, r1, 100);
      a1 := a0 + [X.RunPara(r1, 100)];
    }
    var a2 := a1;
    if Truthy(p.description) {
      DocxText(a1, Bullet + p.description.s, 50);
      a2 := a1 + [X.TextPara(Bullet + p.description.s, 50)];
    }
    if TechTruthy(p.technologies) {
      DocxText(a2, Bullet + "Technologies: " + TechnologiesText(p.technologies), 150);
    }
  }

  lemma {:induction false} DocxProjects(acc: seq<X.Paragraph>, f: DateFormat, xs: seq<Project>)
    ensures DocxTexts(D.ProjectParas(acc, f, xs)) == ProjectTexts(DocxTexts(acc), f, xs)
    decreases |xs|
  {
    if xs != [] {
      DocxProjects(acc, f, xs[..|xs| - 1]);
      DocxProjectEntry(D.ProjectParas(acc, f, xs[..|xs| - 1]), f, xs[|xs| - 1]);
    }
  }

  lemma {:induction false} DocxEducationEntry(acc: seq<X.Paragraph>, f: DateFormat, e: Education)
    ensures DocxTexts(D.EducationEntryParas(acc, f, e)) == EducationEntryTexts(DocxTexts(acc), f, e)
  {
    var r0 := X.Run(DegreeText(e), true, false, Some(22));
    DocxRun(acc, r0, 50);
    var a0 := acc + [X.RunPara(r0, 50)];
    var institution := InstitutionLine(e);
    var a1 := a0;
    if institution != "" {
      DocxText(a0, institution, 50);
      a1 := a0 + [X.TextPara(institution, 50)];
    }
    var after := if Truthy(e.gpa) then 50 else 150;
    DocxText(a1, EducationDates(f, e), after);
    if Truthy(e.gpa) {
      DocxText(a1 + [X.TextPara(EducationDates(f, e), after)], "GPA: " + e.gpa.s, 150);
    }
  }

  lemma {:induction false} DocxEducation(acc: seq<X.Paragraph>, f: DateFormat, xs: seq<Education>)
    ensures DocxTexts(D.EducationParas(acc, f, xs)) == EducationTexts(DocxTexts(acc), f, xs)
    decreases |xs|
  {
    if xs != [] {
      DocxEducation(acc, f, xs[..|xs| - 1]);
      DocxEducationEntry(D.EducationParas(acc, f, xs[..|xs| - 1]), f, xs[|xs| - 1]);
    }
  }

  /** The bold category run and the names run read as the PDF's one line. */
  lemma GroupParaText(g: CategoryGroup)
    ensures X.ParagraphText(X.GroupPara(g)) == GroupLine(g)
  {
    var runs := [X.Run(g.category + ": ", true, false, None), X.Plain(JoinNames(g.names, ", "))];
    assert runs[..1] == [runs[0]];
    X.RunsTextSingle(runs[0]);
  }

  lemma {:induction false} DocxGroups(acc: seq<X.Paragraph>, gs: seq<CategoryGroup>)
    ensures DocxTexts(X.GroupParas(acc, gs)) == GroupTexts(DocxTexts(acc), gs)
    decreases |gs|
  {
    if gs != [] {
      DocxGroups(acc, gs[..|gs| - 1]);
      DocxPara(X.GroupParas(acc, gs[..|gs| - 1]), X.GroupPara(gs[|gs| - 1]));
      GroupParaText(gs[|gs| - 1]);
    }
  }

  lemma {:induction false} DocxCertifications(acc: seq<X.Paragraph>, f: DateFormat, xs: seq<Certification>)
    ensures DocxTexts(D.CertificationParas(acc, f, xs)) == CertificationTexts(DocxTexts(acc), f, xs)
    decreases |xs|
  {
    if xs != [] {
      var c := xs[|xs| - 1];
      var prev := D.CertificationParas(acc, f, xs[..|xs| - 1]);
      DocxCertifications(acc, f, xs[..|xs| - 1]);
      var r0 := X.Run(CertHeader(f, c), true, false, None);
      var after := if Truthy(c.description) then 50 else 100;
      DocxRun(prev, r0, after);
      if Truthy(c.description) {
        DocxText(prev + [X.RunPara(r0, after)], c.description.s, 100);
      }
    }
  }

  lemma {:induction false} DocxReferenceEntry(acc: seq<X.Paragraph>, r: Reference)
    ensures DocxTexts(D.ReferenceEntryParas(acc, r)) == ReferenceEntryTexts(DocxTexts(acc), r)
  {
    var r0 := X.Run(Text(r.name), true, false, None);
    DocxRun(acc, r0, 50);
    var a0 := acc + [X.RunPara(r0, 50)];
    var a1 := a0;
    if Truthy(r.position) {
      DocxText(a0, r.position.s, 30);
      a1 := a0 + [X.TextPara(r.position.s, 30)];
    }
    var a2 := a1;
    if Truthy(r.company) {
      DocxText(a1, r.company.s, 30);
      a2 := a1 + [X.TextPara(r.company.s, 30)];
    }
    var a3 := a2;
    if Truthy(r.phone) {
      DocxText(a2, "Tel: " + r.phone.s, 30);
      a3 := a2 + [X.TextPara("Tel: " + r.phone.s, 30)];
    }
    if Truthy(r.email) {
      DocxText(a3, "Email: " + r.email.s, 150);
    }
  }

  lemma {:induction false} DocxReferences(acc: seq<X.Paragraph>, xs: seq<Reference>)
    ensures DocxTexts(D.ReferenceParas(acc, xs)) == ReferenceTexts(DocxTexts(acc), xs)
    decreases |xs|
  {
    if xs != [] {
      DocxReferences(acc, xs[..|xs| - 1]);
      DocxReferenceEntry(D.ReferenceParas(acc, xs[..|xs| - 1]), xs[|xs| - 1]);
    }
  }

  lemma DocxSummary(acc: seq<X.Paragraph>, r: Resume)
    ensures DocxTexts(D.SummaryParas(acc, r)) == SummaryTexts(DocxTexts(acc), r)
  {
    if Truthy(r.summary) {
      DocxHeading(acc, SummaryTitle);
      DocxText(acc + [D.SectionHeading(SummaryTitle)], r.summary.s, 200);
    }
  }

  lemma DocxCompetencies(acc: seq<X.Paragraph>, r: Resume)
    ensures DocxTexts(D.CompetenciesParas(acc, r)) == CompetenciesTexts(DocxTexts(acc), r)
  {
    if |r.skills| > 0 {
      DocxHeading(acc, CompetenciesTitle);
      DocxText(acc + [D.SectionHeading(CompetenciesTitle)], Competencies(r.skills), 200);
    }
  }

  lemma DocxExperienceSection(acc: seq<X.Paragraph>, f: DateFormat, r: Resume)
    ensures DocxTexts(D.ExperienceSectionParas(acc, f, r)) == ExperienceSectionTexts(DocxTexts(acc), f, r)
  {
    if |r.experience| > 0 || |r.projects| > 0 {
      var hd := acc + [D.SectionHeading(ExperienceTitle(r.experienceType))];
      DocxHeading(acc, ExperienceTitle(r.experienceType));
      DocxExperience(hd, f, r.experience);
      DocxProjects(D.ExperienceParas(hd, f, r.experience), f, r.projects);
    }
  }

  lemma DocxEducationSection(acc: seq<X.Paragraph>, f: DateFormat, r: Resume)
    ensures DocxTexts(D.EducationSectionParas(acc, f, r)) == EducationSectionTexts(DocxTexts(acc), f, r)
  {
    if |r.education| > 0 {
      DocxHeading(acc, EducationTitle);
      DocxEducation(acc + [D.SectionHeading(EducationTitle)], f, r.education);
    }
  }

  lemma DocxTechnical(acc: seq<X.Paragraph>, r: Resume)
    ensures DocxTexts(D.TechnicalParas(acc, r)) == TechnicalTexts(DocxTexts(acc), r)
  {
    if |TechnicalSkills(r.skills)| > 0 {
      DocxHeading(acc, TechnicalSkillsTitle);
      DocxGroups(acc + [D.SectionHeading(TechnicalSkillsTitle)], Group(TechnicalSkills(r.skills)));
    }
  }

  lemma DocxSoft(acc: seq<X.Paragraph>, r: Resume)
    ensures DocxTexts(D.SoftParas(acc, r)) == SoftTexts(DocxTexts(acc), r)
  {
    if |SoftSkills(r.skills)| > 0 {
      DocxHeading(acc, SoftSkillsTitle);
      DocxText(acc + [D.SectionHeading(SoftSkillsTitle)], SoftSkillsLine(r.skills), 200);
    }
  }

  lemma DocxCertificationSection(acc: seq<X.Paragraph>, f: DateFormat, r: Resume)
    ensures DocxTexts(D.CertificationSectionParas(acc, f, r)) == CertificationSectionTexts(DocxTexts(acc), f, r)
  {
    if |r.certifications| > 0 {
      DocxHeading(acc, CertificationsTitle);
      DocxCertifications(acc + [D.SectionHeading(CertificationsTitle)], f, r.certifications);
    }
  }

  lemma DocxLanguages(acc: seq<X.Paragraph>, r: Resume)
    ensures DocxTexts(D.LanguageParas(acc, r)) == LanguageTexts(DocxTexts(acc), r)
  {
    if |r.languages| > 0 {
      DocxHeading(acc, LanguagesTitle);
      DocxText(acc + [D.SectionHeading(LanguagesTitle)], LanguageList(r.languages), 200);
    }
  }

  lemma DocxReferenceSection(acc: seq<X.Paragraph>, r: Resume)
    ensures DocxTexts(D.ReferenceSectionParas(acc, r)) == ReferenceSectionTexts(DocxTexts(acc), r)
  {
    if |r.references| > 0 {
      DocxHeading(acc, ReferencesTitle);
      DocxReferences(acc + [D.SectionHeading(ReferencesTitle)], r.references);
    }
  }

  /** Everything the ATS DOCX holds after its header is the body text. */
  lemma DocxBody(f: DateFormat, r: Resume)
    ensures DocxTexts(D.AtsDocxProgram(f, r)) == BodyTexts(DocxTexts(D.HeaderSectionParas([], r)), f, r)
  {
    var h := D.HeaderSectionParas([], r);
    var a0 := D.SummaryParas(h, r);
    DocxSummary(h, r);
    var a1 := D.CompetenciesParas(a0, r);
    DocxCompetencies(a0, r);
    var a2 := D.ExperienceSectionParas(a1, f, r);
    DocxExperienceSection(a1, f, r);
    var a3 := D.EducationSectionParas(a2, f, r);
    DocxEducationSection(a2, f, r);
    var a4 := D.TechnicalParas(a3, r);
    DocxTechnical(a3, r);
    var a5 := D.SoftParas(a4, r);
    DocxSoft(a4, r);
    var a6 := D.CertificationSectionParas(a5, f, r);
    DocxCertificationSection(a5, f, r);
    var a7 := D.LanguageParas(a6, r);
    DocxLanguages(a6, r);
    DocxReferenceSection(a7, r);
  }

  // ---- the headers, and the whole documents ----

  lemma NonEmptyDropsTrailingEmpty(a: string, b: string)
    ensures NonEmpty([a, b, ""]) == NonEmpty([a, b])
  {
    assert [""][1..] == [];
    assert NonEmpty([""]) == [];
    assert [b][1..] == [];
    assert NonEmpty([b]) == (if b == "" then [] else [b]);
    assert [b, ""][1..] == [""];
    assert NonEmpty([b, ""]) == NonEmpty([b]);
    assert [a, b, ""][1..] == [b, ""];
    assert [a, b][1..] == [b];
  }

  lemma {:induction false} PdfHeader(p: PersonalInfo)
    ensures !Truthy(p.location) ==>
      PdfTexts(A.HeaderCalls([], p)) ==
        Keep(Keep(Keep(Keep([], Or(p.fullName, "Your Name")), Text(p.title)), Join(PdfContactParts(p), " | ")), Join(LinkParts(p), " | "))
  {
    var l0 := P.Line(Or(p.fullName, "Your Name"), 20, P.Bold, P.Center, P.Accent);
    PdfLine([], l0.text, l0.size, l0.style, l0.align, l0.color);
    PdfGap([l0], 5);
    var a0 := [] + [l0] + [P.Gap(5)];
    var a1 := a0;
    if Truthy(p.title) {
      var l1 := P.Line(p.title.s, 12, P.Normal, P.Center, A.Grey);
      PdfLine(a0, l1.text, l1.size, l1.style, l1.align, l1.color);
      PdfGap(a0 + [l1], 5);
      a1 := a0 + [l1] + [P.Gap(5)];
    }
    var a2 := a1;
    if Truthy(p.location) {
      var l2 := P.Line(p.location.s, 10, P.Normal, P.Center, A.Grey);
      PdfLine(a1, l2.text, l2.size, l2.style, l2.align, l2.color);
      PdfGap(a1 + [l2], 5);
      a2 := a1 + [l2] + [P.Gap(5)];
    }
    var contact := PdfContactParts(p);
    var a3 := a2;
    if |contact| > 0 {
      var l3 := P.Line(Join(contact, " | "), 10, P.Normal, P.Center, A.Grey);
      PdfLine(a2, l3.text, l3.size, l3.style, l3.align, l3.color);
      PdfGap(a2 + [l3], 5);
      a3 := a2 + [l3] + [P.Gap(5)];
    }
    var links := LinkParts(p);
    if |links| > 0 {
      var l4 := P.Line(Join(links, " | "), 9, P.Normal, P.Center, P.Accent);
      PdfLine(a3, l4.text, l4.size, l4.style, l4.align, l4.color);
    }
  }

  lemma {:induction false} DocxHeader(p: PersonalInfo)
    ensures !Truthy(p.location) ==>
      DocxTexts(D.HeaderParas([], p)) ==
        Keep(Keep(Keep(Keep([], Or(p.fullName, "Your Name")), Text(p.title)), Join(PdfContactParts(p), " | ")), Join(LinkParts(p), " | "))
  {
    var n := X.Paragraph(X.Heading1, [X.Plain(Or(p.fullName, "Your Name"))], X.Centered, 0, 100, false);
    DocxPara([], n);
    X.RunsTextSingle(X.Plain(Or(p.fullName, "Your Name")));
    var a0 := [] + [n];
    var a1 := a0;
    if Truthy(p.title) {
      DocxPara(a0, X.Centred(p.title.s, 50));
      X.RunsTextSingle(X.Plain(p.title.s));
      a1 := a0 + [X.Centred(p.title.s, 50)];
    }
    var contact := DocxContactParts(p);
    var a2 := a1;
    if |contact| > 0 {
      DocxPara(a1, X.Centred(Join(contact, " | "), 50));
      X.RunsTextSingle(X.Plain(Join(contact, " | ")));
      a2 := a1 + [X.Centred(Join(contact, " | "), 50)];
    }
    var links := LinkParts(p);
    if |links| > 0 {
      DocxPara(a2, X.Centred(Join(links, " | "), 200));
      X.RunsTextSingle(X.Plain(Join(links, " | ")));
    }
    NonEmptyDropsTrailingEmpty(Text(p.phone), Text(p.email));
  }

  /** Without a location the two headers read the same, so the two documents carry the
      same texts in the same order; with one, the PDF gives the location its own line
      where the DOCX appends it to the phone and email line. */
  lemma SameTextsWithoutLocation(f: DateFormat, r: Resume)
    requires r.personalInfo.Some? ==> !Truthy(r.personalInfo.value.location)
    ensures PdfTexts(A.AtsPdfProgram(f, r)) == DocxTexts(D.AtsDocxProgram(f, r))
  {
    if r.personalInfo.Some? {
      PdfHeader(r.personalInfo.value);
      DocxHeader(r.personalInfo.value);
    }
    PdfBody(f, r);
    DocxBody(f, r);
  }
}
