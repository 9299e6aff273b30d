/** `exportToATSDOCX`: the paragraphs the exporter pushes onto `children`, and the
    builder itself. Each `...Paras(acc, ...)` function extends the paragraphs pushed so
    far, `acc`, with those one part of the exporter pushes, in order. */
module AtsDocx {
  import opened Js
  import opened Strings
  import opened ResumeModel
  import opened SkillGroups
  import opened AtsContent
  import opened DocxModel

  /** The bottom border of a section heading: single line, colour 1a91f0, size 10, space 1. */
  const RuleColor: string := "1a91f0"
  const RuleSize: nat := 10

  /** The page margin on all four sides, in twentieths of a point. */
  const PageMargin: nat := 720

  /** `createSectionHeading(text)`. */
  function SectionHeading(title: string): Paragraph {
    Paragraph(Heading2, [Plain(title)], Start, 300, 200, true)
  }

  /** The name, title, phone/email/location and links, centred. */
  function HeaderParas(acc: seq<Paragraph>, p: PersonalInfo): seq<Paragraph> {
    var a0 := acc + [Paragraph(Heading1, [Plain(Or(p.fullName, "Your Name"))], Centered, 0, 100, false)];
    var a1 := if Truthy(p.title) then a0 + [Centred(p.title.s, 50)] else a0;
    var contact := DocxContactParts(p);
    var a2 := if |contact| > 0 then a1 + [Centred(Join(contact, " | "), 50)] else a1;
    var links := LinkParts(p);
    if |links| > 0 then a2 + [Centred(Join(links, " | "), 200)] else a2
  }

  function AchievementParas(acc: seq<Paragraph>, items: seq<string>): seq<Paragraph>
    decreases |items|
  {
    if items == [] then acc
    else AchievementParas(acc, items[..|items| - 1]) + [TextPara(Bullet + items[|items| - 1], 50)]
  }

  /** One experience entry, closed by an empty paragraph. */
  function ExperienceEntryParas(acc: seq<Paragraph>, f: DateFormat, e: Experience): seq<Paragraph> {
    var a0 := acc + [RunPara(Run(Text(e.position), true, false, Some(22)), 50)];
    var company := CompanyLine(e);
    var a1 := if company != "" then a0 + [TextPara(company, 50)] else a0;
    var a2 := a1 + [RunPara(Run(ExperienceDates(f, e), false, true, Some(18)), 100)];
    var a3 := if Truthy(e.description) then a2 + [TextPara(Bullet + e.description.s, 50)] else a2;
    var a4 := if e.achievements.AchList? then AchievementParas(a3, e.achievements.items) else a3;
    a4 + [TextPara("", 150)]
  }

  function ExperienceParas(acc: seq<Paragraph>, f: DateFormat, xs: seq<Experience>): seq<Paragraph>
    decreases |xs|
  {
    if xs == [] then acc else ExperienceEntryParas(ExperienceParas(acc, f, xs[..|xs| - 1]), f, xs[|xs| - 1])
  }

  function ProjectEntryParas(acc: seq<Paragraph>, f: DateFormat, p: Project): seq<Paragraph> {
    var a0 := acc + [RunPara(Run(Text(p.name), true, false, Some(22)), 50)];
    var dates := ProjectDates(f, p);
    var a1 := if dates.Some? then a0 + [RunPara(Run(dates.value, false, true, Some(18)), 100)] else a0;
    var a2 := if Truthy(p.description) then a1 + [TextPara(Bullet + p.description.s, 50)] else a1;
    if TechTruthy(p.technologies) then a2 + [TextPara(Bullet + "Technologies: " + TechnologiesText(p.technologies), 150)] else a2
  }

  function ProjectParas(acc: seq<Paragraph>, f: DateFormat, xs: seq<Project>): seq<Paragraph>
    decreases |xs|
  {
    if xs == [] then acc else ProjectEntryParas(ProjectParas(acc, f, xs[..|xs| - 1]), f, xs[|xs| - 1])
  }

  /** The date paragraph is followed by 50 when a GPA line follows, else by 150. */
  function EducationEntryParas(acc: seq<Paragraph>, f: DateFormat, e: Education): seq<Paragraph> {
    var a0 := acc + [RunPara(Run(DegreeText(e), true, false, Some(22)), 50)];
    var institution := InstitutionLine(e);
    var a1 := if institution != "" then a0 + [TextPara(institution, 50)] else a0;
    var a2 := a1 + [TextPara(EducationDates(f, e), if Truthy(e.gpa) then 50 else 150)];
    if Truthy(e.gpa) then a2 + [TextPara("GPA: " + e.gpa.s, 150)] else a2
  }

  function EducationParas(acc: seq<Paragraph>, f: DateFormat, xs: seq<Education>): seq<Paragraph>
    decreases |xs|
  {
    if xs == [] then acc else EducationEntryParas(EducationParas(acc, f, xs[..|xs| - 1]), f, xs[|xs| - 1])
  }

  /** A bold `category: ` run followed by the names. */
  function CertificationEntryParas(acc: seq<Paragraph>, f: DateFormat, c: Certification): seq<Paragraph> {
    var a0 := acc + [RunPara(Run(CertHeader(f, c), true, false, None), if Truthy(c.description) then 50 else 100)];
    if Truthy(c.description) then a0 + [TextPara(c.description.s, 100)] else a0
  }

  function CertificationParas(acc: seq<Paragraph>, f: DateFormat, xs: seq<Certification>): seq<Paragraph>
    decreases |xs|
  {
    if xs == [] then acc else CertificationEntryParas(CertificationParas(acc, f, xs[..|xs| - 1]), f, xs[|xs| - 1])
  }

  function ReferenceEntryParas(acc: seq<Paragraph>, r: Reference): seq<Paragraph> {
    var a0 := acc + [RunPara(Run(Text(r.name), true, false, None), 50)];
    var a1 := if Truthy(r.position) then a0 + [TextPara(r.position.s, 30)] else a0;
    var a2 := if Truthy(r.company) then a1 + [TextPara(r.company.s, 30)] else a1;
    var a3 := if Truthy(r.phone) then a2 + [TextPara("Tel: " + r.phone.s, 30)] else a2;
    if Truthy(r.email) then a3 + [TextPara("Email: " + r.email.s, 150)] else a3
  }

  function ReferenceParas(acc: seq<Paragraph>, xs: seq<Reference>): seq<Paragraph>
    decreases |xs|
  {
    if xs == [] then acc else ReferenceEntryParas(ReferenceParas(acc, xs[..|xs| - 1]), xs[|xs| - 1])
  }

  // ---- the sections, in the order the exporter pushes them ----

  function HeaderSectionParas(acc: seq<Paragraph>, r: Resume): seq<Paragraph> {
    if r.personalInfo.Some? then HeaderParas(acc, r.personalInfo.value) else acc
  }

  function SummaryParas(acc: seq<Paragraph>, r: Resume): seq<Paragraph> {
    if Truthy(r.summary) then acc + [SectionHeading(SummaryTitle)] + [TextPara(r.summary.s, 200)] else acc
  }

  function CompetenciesParas(acc: seq<Paragraph>, r: Resume): seq<Paragraph> {
    if |r.skills| > 0 then acc + [SectionHeading(CompetenciesTitle)] + [TextPara(Competencies(r.skills), 200)] else acc
  }

  function ExperienceSectionParas(acc: seq<Paragraph>, f: DateFormat, r: Resume): seq<Paragraph> {
    if |r.experience| > 0 || |r.projects| > 0 then
      ProjectParas(ExperienceParas(acc + [SectionHeading(ExperienceTitle(r.experienceType))], f, r.experience), f, r.projects)
    else acc
  }

  function EducationSectionParas(acc: seq<Paragraph>, f: DateFormat, r: Resume): seq<Paragraph> {
    if |r.education| > 0 then EducationParas(acc + [SectionHeading(EducationTitle)], f, r.education) else acc
  }

  function TechnicalParas(acc: seq<Paragraph>, r: Resume): seq<Paragraph> {
    var technical := TechnicalSkills(r.skills);
    if |technical| > 0 then GroupParas(acc + [SectionHeading(TechnicalSkillsTitle)], Group(technical)) else acc
  }

  function SoftParas(acc: seq<Paragraph>, r: Resume): seq<Paragraph> {
    if |SoftSkills(r.skills)| > 0 then acc + [SectionHeading(SoftSkillsTitle)] + [TextPara(SoftSkillsLine(r.skills), 200)] else acc
  }

  function CertificationSectionParas(acc: seq<Paragraph>, f: DateFormat, r: Resume): seq<Paragraph> {
    if |r.certifications| > 0 then CertificationParas(acc + [SectionHeading(CertificationsTitle)], f, r.certifications) else acc
  }

  function LanguageParas(acc: seq<Paragraph>, r: Resume): seq<Paragraph> {
    if |r.languages| > 0 then acc + [SectionHeading(LanguagesTitle)] + [TextPara(LanguageList(r.languages), 200)] else acc
  }

  function ReferenceSectionParas(acc: seq<Paragraph>, r: Resume): seq<Paragraph> {
    if |r.references| > 0 then ReferenceParas(acc + [SectionHeading(ReferencesTitle)], r.references) else acc
  }

  /** Every paragraph `exportToATSDOCX` pushes for a resume, in order. */
  function AtsDocxProgram(f: DateFormat, r: Resume): seq<Paragraph> {
    var a0 := HeaderSectionParas([], r);
    var a1 := CompetenciesParas(SummaryParas(a0, r), r);
    var a2 := EducationSectionParas(ExperienceSectionParas(a1, f, r), f, r);
    var a3 := SoftParas(TechnicalParas(a2, r), r);
    ReferenceSectionParas(LanguageParas(CertificationSectionParas(a3, f, r), r), r)
  }

  // ---- the section headings ----

  /** The texts of the `HEADING_2` paragraphs among `ps`, in order. */
  function DocxHeadings(ps: seq<Paragraph>): seq<string>
    decreases |ps|
  {
    if ps == [] then []
    else
      var last := ps[|ps| - 1];
      DocxHeadings(ps[..|ps| - 1]) + (if last.style == Heading2 then [ParagraphText(last)] else [])
  }

  /** A paragraph of another style leaves the heading sequence alone. */
  lemma Plain1(s: seq<Paragraph>, p: Paragraph)
    requires p.style != Heading2
    ensures DocxHeadings(s + [p]) == DocxHeadings(s)
  {
    assert (s + [p])[..|s|] == s;
  }

  lemma HeadingPushed(s: seq<Paragraph>, title: string)
    ensures DocxHeadings(s + [SectionHeading(title)]) == DocxHeadings(s) + [title]
  {
    assert (s + [SectionHeading(title)])[..|s|] == s;
    RunsTextSingle(Plain(title));
  }

  lemma {:induction false} HeaderNoHeadings(acc: seq<Paragraph>, p: PersonalInfo)
    ensures DocxHeadings(HeaderParas(acc, p)) == DocxHeadings(acc)
  {
    var a0 := acc + [Paragraph(Heading1, [Plain(Or(p.fullName, "Your Name"))], Centered, 0, 100, false)];
    Plain1(acc, Paragraph(Heading1, [Plain(Or(p.fullName, "Your Name"))], Centered, 0, 100, false));
    var a1 := a0;
    if Truthy(p.title) {
      Plain1(a0, Centred(p.title.s, 50));
      a1 := a0 + [Centred(p.title.s, 50)];
    }
    var contact := DocxContactParts(p);
    var a2 := a1;
    if |contact| > 0 {
      Plain1(a1, Centred(Join(contact, " | "), 50));
      a2 := a1 + [Centred(Join(contact, " | "), 50)];
    }
    var links := LinkParts(p);
    if |links| > 0 {
      Plain1(a2, Centred(Join(links, " | "), 200));
    }
  }

  lemma {:induction false} AchievementsNoHeadings(acc: seq<Paragraph>, items: seq<string>)
    ensures DocxHeadings(AchievementParas(acc, items)) == DocxHeadings(acc)
    decreases |items|
  {
    if items != [] {
      AchievementsNoHeadings(acc, items[..|items| - 1]);
      Plain1(AchievementParas(acc, items[..|items| - 1]), TextPara(Bullet + items[|items| - 1], 50));
    }
  }

  lemma {:induction false} ExperienceEntryNoHeadings(acc: seq<Paragraph>, f: DateFormat, e: Experience)
    ensures DocxHeadings(ExperienceEntryParas(acc, f, e)) == DocxHeadings(acc)
  {
    Plain1(acc, RunPara(Run(Text(e.position), true, false, Some(22)), 50));
    var a0 := acc + [RunPara(Run(Text(e.position), true, false, Some(22)), 50)];
    var company := CompanyLine(e);
    var a1 := a0;
    if company != "" {
      Plain1(a0, TextPara(company, 50));
      a1 := a0 + [TextPara(company, 50)];
    }
    Plain1(a1, RunPara(Run(ExperienceDates(f, e), false, true, Some(18)), 100));
    var a2 := a1 + [RunPara(Run(ExperienceDates(f, e), false, true, Some(18)), 100)];
    var a3 := a2;
    if Truthy(e.description) {
      Plain1(a2, TextPara(Bullet + e.description.s, 50));
      a3 := a2 + [TextPara(Bullet + e.description.s, 50)];
    }
    var a4 := a3;
    if e.achievements.AchList? {
      AchievementsNoHeadings(a3, e.achievements.items);
      a4 := AchievementParas(a3, e.achievements.items);
    }
    Plain1(a4, TextPara("", 150));
  }

  lemma {:induction false} ExperienceNoHeadings(acc: seq<Paragraph>, f: DateFormat, xs: seq<Experience>)
    ensures DocxHeadings(ExperienceParas(acc, f, xs)) == DocxHeadings(acc)
    decreases |xs|
  {
    if xs != [] {
      ExperienceNoHeadings(acc, f, xs[..|xs| - 1]);
      ExperienceEntryNoHeadings(ExperienceParas(acc, f, xs[..|xs| - 1]), f, xs[|xs| - 1]);
    }
  }

  lemma {:induction false} ProjectEntryNoHeadings(acc: seq<Paragraph>, f: DateFormat, p: Project)
    ensures DocxHeadings(ProjectEntryParas(acc, f, p)) == DocxHeadings(acc)
  {
    Plain1(acc, RunPara(Run(Text(p.name), true, false, Some(22)), 50));
    var a0 := acc + [RunPara(Run(Text(p.name), true, false, Some(22)), 50)];
    var dates := ProjectDates(f, p);
    var a1 := a0;
    if dates.Some? {
      Plain1(a0, RunPara(Run(dates.value, false, true, Some(18)), 100));
      a1 := a0 + [RunPara(Run(dates.value, false, true, Some(18)), 100)];
    }
    var a2 := a1;
    if Truthy(p.description) {
      Plain1(a1, TextPara(Bullet + p.description.s, 50));
      a2 := a1 + [TextPara(Bullet + p.description.s, 50)];
    }
    if TechTruthy(p.technologies) {
      Plain1(a2, TextPara(Bullet + "Technologies: " + TechnologiesText(p.technologies), 150));
    }
  }

  lemma {:induction false} ProjectsNoHeadings(acc: seq<Paragraph>, f: DateFormat, xs: seq<Project>)
    ensures DocxHeadings(ProjectParas(acc, f, xs)) == DocxHeadings(acc)
    decreases |xs|
  {
    if xs != [] {
      ProjectsNoHeadings(acc, f, xs[..|xs| - 1]);
      ProjectEntryNoHeadings(ProjectParas(acc, f, xs[..|xs| - 1]), f, xs[|xs| - 1]);
    }
  }

  lemma {:induction false} EducationEntryNoHeadings(acc: seq<Paragraph>, f: DateFormat, e: Education)
    ensures DocxHeadings(EducationEntryParas(acc, f, e)) == DocxHeadings(acc)
  {
    Plain1(acc, RunPara(Run(DegreeText(e), true, false, Some(22)), 50));
    var a0 := acc + [RunPara(Run(DegreeText(e), true, false, Some(22)), 50)];
    var institution := InstitutionLine(e);
    var a1 := a0;
    if institution != "" {
      Plain1(a0, TextPara(institution, 50));
      a1 := a0 + [TextPara(institution, 50)];
    }
    var datePara := TextPara(EducationDates(f, e), if Truthy(e.gpa) then 50 else 150);
    Plain1(a1, datePara);
    if Truthy(e.gpa) {
      Plain1(a1 + [datePara], TextPara("GPA: " + e.gpa.s, 150));
    }
  }

  lemma {:induction false} EducationNoHeadings(acc: seq<Paragraph>, f: DateFormat, xs: seq<Education>)
    ensures DocxHeadings(EducationParas(acc, f, xs)) == DocxHeadings(acc)
    decreases |xs|
  {
    if xs != [] {
      EducationNoHeadings(acc, f, xs[..|xs| - 1]);
      EducationEntryNoHeadings(EducationParas(acc, f, xs[..|xs| - 1]), f, xs[|xs| - 1]);
    }
  }

  lemma {:induction false} GroupsNoHeadings(acc: seq<Paragraph>, gs: seq<CategoryGroup>)
    ensures DocxHeadings(GroupParas(acc, gs)) == DocxHeadings(acc)
    decreases |gs|
  {
    if gs != [] {
      GroupsNoHeadings(acc, gs[..|gs| - 1]);
      Plain1(GroupParas(acc, gs[..|gs| - 1]), GroupPara(gs[|gs| - 1]));
    }
  }

  lemma {:induction false} CertificationsNoHeadings(acc: seq<Paragraph>, f: DateFormat, xs: seq<Certification>)
    ensures DocxHeadings(CertificationParas(acc, f, xs)) == DocxHeadings(acc)
    decreases |xs|
  {
    if xs != [] {
      var c := xs[|xs| - 1];
      var prev := CertificationParas(acc, f, xs[..|xs| - 1]);
      CertificationsNoHeadings(acc, f, xs[..|xs| - 1]);
      var header := RunPara(Run(CertHeader(f, c), true, false, None), if Truthy(c.description) then 50 else 100);
      Plain1(prev, header);
      if Truthy(c.description) {
        Plain1(prev + [header], TextPara(c.description.s, 100));
      }
    }
  }

  lemma {:induction false} ReferenceEntryNoHeadings(acc: seq<Paragraph>, r: Reference)
    ensures DocxHeadings(ReferenceEntryParas(acc, r)) == DocxHeadings(acc)
  {
    Plain1(acc, RunPara(Run(Text(r.name), true, false, None), 50));
    var a0 := acc + [RunPara(Run(Text(r.name), true, false, None), 50)];
    var a1 := a0;
    if Truthy(r.position) {
      Plain1(a0, TextPara(r.position.s, 30));
      a1 := a0 + [TextPara(r.position.s, 30)];
    }
    var a2 := a1;
    if Truthy(r.company) {
      Plain1(a1, TextPara(r.company.s, 30));
      a2 := a1 + [TextPara(r.company.s, 30)];
    }
    var a3 := a2;
    if Truthy(r.phone) {
      Plain1(a2, TextPara("Tel: " + r.phone.s, 30));
      a3 := a2 + [TextPara("Tel: " + r.phone.s, 30)];
    }
    if Truthy(r.email) {
      Plain1(a3, TextPara("Email: " + r.email.s, 150));
    }
  }

  lemma {:induction false} ReferencesNoHeadings(acc: seq<Paragraph>, xs: seq<Reference>)
    ensures DocxHeadings(ReferenceParas(acc, xs)) == DocxHeadings(acc)
    decreases |xs|
  {
    if xs != [] {
      ReferencesNoHeadings(acc, xs[..|xs| - 1]);
      ReferenceEntryNoHeadings(ReferenceParas(acc, xs[..|xs| - 1]), xs[|xs| - 1]);
    }
  }

  lemma SummaryHeadings(acc: seq<Paragraph>, r: Resume)
    ensures DocxHeadings(SummaryParas(acc, r)) == DocxHeadings(acc) + Emitted(Candidate(Truthy(r.summary), SummaryTitle))
  {
    if Truthy(r.summary) {
      HeadingPushed(acc, SummaryTitle);
      Plain1(acc + [SectionHeading(SummaryTitle)], TextPara(r.summary.s, 200));
    }
  }

  lemma CompetenciesHeadings(acc: seq<Paragraph>, r: Resume)
    ensures DocxHeadings(CompetenciesParas(acc, r)) == DocxHeadings(acc) + Emitted(Candidate(|r.skills| > 0, CompetenciesTitle))
  {
    if |r.skills| > 0 {
      HeadingPushed(acc, CompetenciesTitle);
      Plain1(acc + [SectionHeading(CompetenciesTitle)], TextPara(Competencies(r.skills), 200));
    }
  }

  lemma ExperienceHeadings(acc: seq<Paragraph>, f: DateFormat, r: Resume)
    ensures DocxHeadings(ExperienceSectionParas(acc, f, r)) ==
      DocxHeadings(acc) + Emitted(Candidate(|r.experience| > 0 || |r.projects| > 0, ExperienceTitle(r.experienceType)))
  {
    if |r.experience| > 0 || |r.projects| > 0 {
      var h := acc + [SectionHeading(ExperienceTitle(r.experienceType))];
      HeadingPushed(acc, ExperienceTitle(r.experienceType));
      ExperienceNoHeadings(h, f, r.experience);
      ProjectsNoHeadings(ExperienceParas(h, f, r.experience), f, r.projects);
    }
  }

  lemma EducationHeadings(acc: seq<Paragraph>, f: DateFormat, r: Resume)
    ensures DocxHeadings(EducationSectionParas(acc, f, r)) == DocxHeadings(acc) + Emitted(Candidate(|r.education| > 0, EducationTitle))
  {
    if |r.education| > 0 {
      HeadingPushed(acc, EducationTitle);
      EducationNoHeadings(acc + [SectionHeading(EducationTitle)], f, r.education);
    }
  }

  lemma TechnicalHeadings(acc: seq<Paragraph>, r: Resume)
    ensures DocxHeadings(TechnicalParas(acc, r)) ==
      DocxHeadings(acc) + Emitted(Candidate(|TechnicalSkills(r.skills)| > 0, TechnicalSkillsTitle))
  {
    if |TechnicalSkills(r.skills)| > 0 {
      HeadingPushed(acc, TechnicalSkillsTitle);
      GroupsNoHeadings(acc + [SectionHeading(TechnicalSkillsTitle)], Group(TechnicalSkills(r.skills)));
    }
  }

  lemma SoftHeadings(acc: seq<Paragraph>, r: Resume)
    ensures DocxHeadings(SoftParas(acc, r)) == DocxHeadings(acc) + Emitted(Candidate(|SoftSkills(r.skills)| > 0, SoftSkillsTitle))
  {
    if |SoftSkills(r.skills)| > 0 {
      HeadingPushed(acc, SoftSkillsTitle);
      Plain1(acc + [SectionHeading(SoftSkillsTitle)], TextPara(SoftSkillsLine(r.skills), 200));
    }
  }

  lemma CertificationHeadings(acc: seq<Paragraph>, f: DateFormat, r: Resume)
    ensures DocxHeadings(CertificationSectionParas(acc, f, r)) ==
      DocxHeadings(acc) + Emitted(Candidate(|r.certifications| > 0, CertificationsTitle))
  {
    if |r.certifications| > 0 {
      HeadingPushed(acc, CertificationsTitle);
      CertificationsNoHeadings(acc + [SectionHeading(CertificationsTitle)], f, r.certifications);
    }
  }

  lemma LanguageHeadings(acc: seq<Paragraph>, r: Resume)
    ensures DocxHeadings(LanguageParas(acc, r)) == DocxHeadings(acc) + Emitted(Candidate(|r.languages| > 0, LanguagesTitle))
  {
    if |r.languages| > 0 {
      HeadingPushed(acc, LanguagesTitle);
      Plain1(acc + [SectionHeading(LanguagesTitle)], TextPara(LanguageList(r.languages), 200));
    }
  }

  lemma ReferenceHeadings(acc: seq<Paragraph>, r: Resume)
    ensures DocxHeadings(ReferenceSectionParas(acc, r)) == DocxHeadings(acc) + Emitted(Candidate(|r.references| > 0, ReferencesTitle))
  {
    if |r.references| > 0 {
      HeadingPushed(acc, ReferencesTitle);
      ReferencesNoHeadings(acc + [SectionHeading(ReferencesTitle)], r.references);
    }
  }

  /** The DOCX's section headings are exactly the resume's section titles. */
  lemma AtsDocxHeadings(f: DateFormat, r: Resume)
    ensures DocxHeadings(AtsDocxProgram(f, r)) == SectionTitles(r)
  {
    var h := HeaderSectionParas([], r);
    if r.personalInfo.Some? {
      HeaderNoHeadings([], r.personalInfo.value);
    }
    var a0 := SummaryParas(h, r);
    SummaryHeadings(h, r);
    var a1 := CompetenciesParas(a0, r);
    CompetenciesHeadings(a0, r);
    var a2 := ExperienceSectionParas(a1, f, r);
    ExperienceHeadings(a1, f, r);
    var a3 := EducationSectionParas(a2, f, r);
    EducationHeadings(a2, f, r);
    var a4 := TechnicalParas(a3, r);
    TechnicalHeadings(a3, r);
    var a5 := SoftParas(a4, r);
    SoftHeadings(a4, r);
    var a6 := CertificationSectionParas(a5, f, r);
    CertificationHeadings(a5, f, r);
    var a7 := LanguageParas(a6, r);
    LanguageHeadings(a6, r);
    ReferenceHeadings(a7, r);
    CandidatesSnoc(r);
  }

  // ---- the builder ----

  /** The `Document`: one section with 720 margins and the pushed paragraphs. */
  datatype DocxDocument = DocxDocument(margin: nat, children: seq<Paragraph>)

  const DocxExportError: string := "Failed to export DOCX file"

  /** `exportToATSDOCX(resumeData)`. `saved` is whether `Packer.toBlob` and `saveAs`
      succeed; any failure surfaces as the one fixed error. When the written grouping of
      the technical skills throws, no `Document` is built and the export fails. */
  method ExportToAtsDocx(f: DateFormat, r: Resume, saved: bool) returns (doc: Option<DocxDocument>, status: Status)
    ensures doc.Some? <==> GroupAsWritten(TechnicalSkills(r.skills)).Ok?
    ensures doc.Some? ==> doc.value.margin == PageMargin && doc.value.children == AtsDocxProgram(f, r)
    ensures doc.Some? ==> DocxHeadings(doc.value.children) == SectionTitles(r)
    ensures status == (if doc.Some? && saved then Success else Failed(DocxExportError))
  {
    var children: seq<Paragraph> := [];
    if r.personalInfo.Some? {
      children := PushHeader(children, r.personalInfo.value);
    }
    if Truthy(r.summary) {
      children := children + [SectionHeading(SummaryTitle)];
      children := children + [TextPara(r.summary.s, 200)];
    }
    if |r.skills| > 0 {
      children := children + [SectionHeading(CompetenciesTitle)];
      children := children + [TextPara(Competencies(r.skills), 200)];
    }
    children := PushExperienceSection(children, f, r);
    if |r.education| > 0 {
      children := children + [SectionHeading(EducationTitle)];
      children := PushEducation(children, f, r.education);
    }
    var thrown;
    children, thrown := PushSkills(children, r);
    if thrown {
      doc := None;
      status := Failed(DocxExportError);
      return;
    }
    children := PushClosing(children, f, r);
    AtsDocxHeadings(f, r);
    doc := Some(DocxDocument(PageMargin, children));
    status := if saved then Success else Failed(DocxExportError);
  }

  method PushHeader(children: seq<Paragraph>, p: PersonalInfo) returns (out: seq<Paragraph>)
    ensures out == HeaderParas(children, p)
  {
    out := children + [Paragraph(Heading1, [Plain(Or(p.fullName, "Your Name"))], Centered, 0, 100, false)];
    if Truthy(p.title) {
      out := out + [Centred(p.title.s, 50)];
    }
    var contact := DocxContactParts(p);
    if |contact| > 0 {
      out := out + [Centred(Join(contact, " | "), 50)];
    }
    var links := LinkParts(p);
    if |links| > 0 {
      out := out + [Centred(Join(links, " | "), 200)];
    }
  }

  method PushExperienceSection(children: seq<Paragraph>, f: DateFormat, r: Resume) returns (out: seq<Paragraph>)
    ensures out == ExperienceSectionParas(children, f, r)
  {
    out := children;
    if |r.experience| > 0 || |r.projects| > 0 {
      out := out + [SectionHeading(ExperienceTitle(r.experienceType))];
      out := PushExperience(out, f, r.experience);
      out := PushProjects(out, f, r.projects);
    }
  }

  method PushExperience(children: seq<Paragraph>, f: DateFormat, xs: seq<Experience>) returns (out: seq<Paragraph>)
    ensures out == ExperienceParas(children, f, xs)
  {
    out := children;
    for i := 0 to |xs|
      invariant out == ExperienceParas(children, f, xs[..i])
    {
      out := PushExperienceEntry(out, f, xs[i]);
      assert xs[..i + 1][..i] == xs[..i];
    }
    assert xs[..|xs|] == xs;
  }

  method PushProjects(children: seq<Paragraph>, f: DateFormat, xs: seq<Project>) returns (out: seq<Paragraph>)
    ensures out == ProjectParas(children, f, xs)
  {
    out := children;
    for i := 0 to |xs|
      invariant out == ProjectParas(children, f, xs[..i])
    {
      out := PushProjectEntry(out, f, xs[i]);
      assert xs[..i + 1][..i] == xs[..i];
    }
    assert xs[..|xs|] == xs;
  }

  method PushExperienceEntry(children: seq<Paragraph>, f: DateFormat, e: Experience) returns (out: seq<Paragraph>)
    ensures out == ExperienceEntryParas(children, f, e)
  {
    out := children + [RunPara(Run(Text(e.position), true, false, Some(22)), 50)];
    var company := CompanyLine(e);
    if company != "" {
      out := out + [TextPara(company, 50)];
    }
    out := out + [RunPara(Run(ExperienceDates(f, e), false, true, Some(18)), 100)];
    if Truthy(e.description) {
      out := out + [TextPara(Bullet + e.description.s, 50)];
    }
    if e.achievements.AchList? {
      var items := e.achievements.items;
      ghost var before := out;
      for i := 0 to |items|
        invariant out == AchievementParas(before, items[..i])
      {
        out := out + [TextPara(Bullet + items[i], 50)];
        assert items[..i + 1][..i] == items[..i];
      }
      assert items[..|items|] == items;
    }
    out := out + [TextPara("", 150)];
  }

  method PushProjectEntry(children: seq<Paragraph>, f: DateFormat, p: Project) returns (out: seq<Paragraph>)
    ensures out == ProjectEntryParas(children, f, p)
  {
    out := children + [RunPara(Run(Text(p.name), true, false, Some(22)), 50)];
    var dates := ProjectDates(f, p);
    if dates.Some? {
      out := out + [RunPara(Run(dates.value, false, true, Some(18)), 100)];
    }
    if Truthy(p.description) {
      out := out + [TextPara(Bullet + p.description.s, 50)];
    }
    if TechTruthy(p.technologies) {
      out := out + [TextPara(Bullet + "Technologies: " + TechnologiesText(p.technologies), 150)];
    }
  }

  method PushEducation(children: seq<Paragraph>, f: DateFormat, xs: seq<Education>) returns (out: seq<Paragraph>)
    ensures out == EducationParas(children, f, xs)
  {
    out := children;
    for i := 0 to |xs|
      invariant out == EducationParas(children, f, xs[..i])
    {
      var e := xs[i];
      out := out + [RunPara(Run(DegreeText(e), true, false, Some(22)), 50)];
      var institution := InstitutionLine(e);
      if institution != "" {
        out := out + [TextPara(institution, 50)];
      }
      out := out + [TextPara(EducationDates(f, e), if Truthy(e.gpa) then 50 else 150)];
      if Truthy(e.gpa) {
        out := out + [TextPara("GPA: " + e.gpa.s, 150)];
      }
      assert xs[..i + 1][..i] == xs[..i];
    }
    assert xs[..|xs|] == xs;
  }

  /** The technical-skills groups and the soft-skills line. `thrown` is whether the
      written grouping throws, which happens after the heading is pushed. */
  method PushSkills(children: seq<Paragraph>, r: Resume) returns (out: seq<Paragraph>, thrown: bool)
    ensures thrown <==> GroupAsWritten(TechnicalSkills(r.skills)).Err?
    ensures thrown ==> out == children + [SectionHeading(TechnicalSkillsTitle)]
    ensures !thrown ==> out == SoftParas(TechnicalParas(children, r), r)
  {
    out := children;
    thrown := false;
    var technical := TechnicalSkills(r.skills);
    if |technical| > 0 {
      out := out + [SectionHeading(TechnicalSkillsTitle)];
      var grouped := GroupAsWritten(technical);
      if grouped.Err? {
        thrown := true;
        return;
      }
      GroupAsWrittenFails(technical);
      var groups := grouped.value;
      ghost var before := out;
      for i := 0 to |groups|
        invariant out == GroupParas(before, groups[..i])
      {
        out := out + [GroupPara(groups[i])];
        assert groups[..i + 1][..i] == groups[..i];
      }
      assert groups[..|groups|] == groups;
    }
    if |SoftSkills(r.skills)| > 0 {
      out := out + [SectionHeading(SoftSkillsTitle)];
      out := out + [TextPara(SoftSkillsLine(r.skills), 200)];
    }
  }

  /** The certification, language and referee sections. */
  method PushClosing(children: seq<Paragraph>, f: DateFormat, r: Resume) returns (out: seq<Paragraph>)
    ensures out == ReferenceSectionParas(LanguageParas(CertificationSectionParas(children, f, r), r), r)
  {
    out := children;
    if |r.certifications| > 0 {
      out := out + [SectionHeading(CertificationsTitle)];
      ghost var before := out;
      for i := 0 to |r.certifications|
        invariant out == CertificationParas(before, f, r.certifications[..i])
      {
        var c := r.certifications[i];
        out := out + [RunPara(Run(CertHeader(f, c), true, false, None), if Truthy(c.description) then 50 else 100)];
        if Truthy(c.description) {
          out := out + [TextPara(c.description.s, 100)];
        }
        assert r.certifications[..i + 1][..i] == r.certifications[..i];
      }
      assert r.certifications[..|r.certifications|] == r.certifications;
    }
    if |r.languages| > 0 {
      out := out + [SectionHeading(LanguagesTitle)];
      out := out + [TextPara(LanguageList(r.languages), 200)];
    }
    if |r.references| > 0 {
      out := out + [SectionHeading(ReferencesTitle)];
      ghost var before := out;
      for i := 0 to |r.references|
        invariant out == ReferenceParas(before, r.references[..i])
      {
        out := PushReferenceEntry(out, r.references[i]);
        assert r.references[..i + 1][..i] == r.references[..i];
      }
      assert r.references[..|r.references|] == r.references;
    }
  }

  method PushReferenceEntry(children: seq<Paragraph>, r: Reference) returns (out: seq<Paragraph>)
    ensures out == ReferenceEntryParas(children, r)
  {
    out := children + [RunPara(Run(Text(r.name), true, false, None), 50)];
    if Truthy(r.position) {
      out := out + [TextPara(r.position.s, 30)];
    }
    if Truthy(r.company) {
      out := out + [TextPara(r.company.s, 30)];
    }
    if Truthy(r.phone) {
      out := out + [TextPara("Tel: " + r.phone.s, 30)];
    }
    if Truthy(r.email) {
      out := out + [TextPara("Email: " + r.email.s, 150)];
    }
  }
}
