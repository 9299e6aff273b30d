/** `exportToWord`, the older Word exporter: the paragraphs it pushes onto `sections`,
    the in-place grouping of skills by category, and `getExportFormatLabel`. Each
    `...Paras(acc, ...)` function extends the paragraphs pushed so far, `acc`, with those
    one part of the exporter pushes, in order. */
module WordExport {
  import opened Js
  import opened Strings
  import opened ResumeModel
  import opened SkillGroups
  import opened AtsContent
  import opened DocxModel

  /** What the runtime supplies: the month-and-year rendering of a date, and the text a
      `TextRun` shows when its `text` option is an array (the projects editor stores
      `technologies` as one). */
  datatype WordRuntime = WordRuntime(dates: DateFormat, arrayText: seq<string> -> string)

  const SummaryHeading: string := "Professional Summary"
  const ExperienceHeading: string := "Work Experience"
  const EducationHeading: string := "Education"
  const SkillsHeading: string := "Skills"
  const ProjectsHeading: string := "Projects"
  const CertificationsHeading: string := "Certifications"
  const LanguagesHeading: string := "Languages"

  /** The achievement bullet as the file spells it: the UTF-8 bytes of U+2022 read as
      Windows-1252 text, then a space. */
  const MisencodedBullet: string := "\U{00E2}\U{20AC}\U{00A2} "

  const WordExportError: string := "Failed to export Word document"

  /** A section heading: `HEADING_1`, 200 before and 100 after. */
  function HeadingPara(title: string): Paragraph {
    Paragraph(Heading1, [Plain(title)], Start, 200, 100, false)
  }

  /** A run `field ? ` - ${field}` : ''`. */
  function Suffix(v: Val): (r: string)
    ensures r == "" <==> !Truthy(v)
    ensures Truthy(v) ==> r == " - " + v.s
  {
    if Truthy(v) then " - " + v.s else ""
  }

  /** A line of two runs: the first bold, both of the given size. */
  function TitleLine(first: string, second: string, size: Option<nat>, after: nat): Paragraph {
    Paragraph(Body, [Run(first, true, false, size), Run(second, false, false, size)], Start, 0, after, false)
  }

  // ---- the header ----

  /** The contact line of this exporter: email, phone, then location, each only if present. */
  function WordContactParts(p: PersonalInfo): (r: seq<string>)
    ensures |r| <= 3
    ensures forall x :: x in r <==> x != "" && x in [Text(p.email), Text(p.phone), Text(p.location)]
  {
    NonEmpty([Text(p.email), Text(p.phone), Text(p.location)])
  }

  /** The name as a `TITLE`, then the contact line and the links, centred. */
  function HeaderParas(acc: seq<Paragraph>, p: PersonalInfo): seq<Paragraph> {
    var a0 := acc + [Paragraph(Title, [Plain(Or(p.fullName, "Your Name"))], Centered, 0, 100, false)];
    var contact := WordContactParts(p);
    var a1 := if |contact| > 0 then a0 + [Centred(Join(contact, " | "), 200)] else a0;
    var links := LinkParts(p);
    if |links| > 0 then a1 + [Centred(Join(links, " | "), 300)] else a1
  }

  function HeaderSection(r: Resume): seq<Paragraph> {
    if r.personalInfo.Some? then HeaderParas([], r.personalInfo.value) else []
  }

  function SummarySection(acc: seq<Paragraph>, r: Resume): seq<Paragraph> {
    if Truthy(r.summary) then acc + [HeadingPara(SummaryHeading)] + [TextPara(r.summary.s, 300)] else acc
  }

  // ---- work experience ----

  /** The date line `${start} - ${end}`, emitted only when a start or an end date is set;
      a missing end reads 'Present' whatever `current` says. */
  function DateLine(f: DateFormat, e: Experience): (r: Option<string>)
    ensures r.Some? <==> Truthy(e.startDate) || Truthy(e.endDate)
    ensures r.Some? && !Truthy(e.endDate) ==> r.value == FormatDate(f, e.startDate) + " - Present"
  {
    if !Truthy(e.startDate) && !Truthy(e.endDate) then None
    else Some(FormatDate(f, e.startDate) + " - " + (if Truthy(e.endDate) then FormatDate(f, e.endDate) else "Present"))
  }

  /** JavaScript truthiness of `achievements`: any array is truthy, even an empty one. */
  predicate AchTruthy(a: Achievements) {
    a.AchList? || (a.AchText? && a.text != "")
  }

  /** `Array.isArray(a) ? a : [a]` behind the `if (exp.achievements)` guard. */
  function AchievementItems(a: Achievements): (items: seq<string>)
    ensures !AchTruthy(a) ==> items == []
    ensures a.AchList? ==> items == a.items
    ensures a.AchText? && a.text != "" ==> items == [a.text]
  {
    match a
    case AchAbsent => []
    case AchText(s) => if s == "" then [] else [s]
    case AchList(xs) => xs
  }

  function AchievementParas(acc: seq<Paragraph>, items: seq<string>): seq<Paragraph>
    decreases |items|
  {
    if items == [] then acc
    else AchievementParas(acc, items[..|items| - 1]) + [TextPara(MisencodedBullet + items[|items| - 1], 50)]
  }

  /** One experience entry, closed by an empty paragraph. */
  function ExperienceEntryParas(acc: seq<Paragraph>, f: DateFormat, e: Experience): seq<Paragraph> {
    var a0 := acc + [TitleLine(Text(e.position), Suffix(e.company), Some(24), 50)];
    var dates := DateLine(f, e);
    var a1 := if dates.Some? then a0 + [TextPara(dates.value, 100)] else a0;
    var a2 := if Truthy(e.description) then a1 + [TextPara(e.description.s, 100)] else a1;
    var a3 := AchievementParas(a2, AchievementItems(e.achievements));
    a3 + [TextPara("", 200)]
  }

  function ExperienceParas(acc: seq<Paragraph>, f: DateFormat, xs: seq<Experience>): seq<Paragraph>
    decreases |xs|
  {
    if xs == [] then acc else ExperienceEntryParas(ExperienceParas(acc, f, xs[..|xs| - 1]), f, xs[|xs| - 1])
  }

  function ExperienceSection(acc: seq<Paragraph>, f: DateFormat, r: Resume): seq<Paragraph> {
    if |r.experience| > 0 then ExperienceParas(acc + [HeadingPara(ExperienceHeading)], f, r.experience) else acc
  }

  // ---- education ----

  function EducationEntryParas(acc: seq<Paragraph>, f: DateFormat, e: Education): seq<Paragraph> {
    var a0 := acc + [TitleLine(Text(e.degree), Suffix(e.institution), Some(24), 50)];
    var a1 := if Truthy(e.graduationDate) then a0 + [TextPara(FormatDate(f, e.graduationDate), 100)] else a0;
    if Truthy(e.gpa) then a1 + [TextPara("GPA: " + e.gpa.s, 200)] else a1
  }

  function EducationParas(acc: seq<Paragraph>, f: DateFormat, xs: seq<Education>): seq<Paragraph>
    decreases |xs|
  {
    if xs == [] then acc else EducationEntryParas(EducationParas(acc, f, xs[..|xs| - 1]), f, xs[|xs| - 1])
  }

  function EducationSection(acc: seq<Paragraph>, f: DateFormat, r: Resume): seq<Paragraph> {
    if |r.education| > 0 then EducationParas(acc + [HeadingPara(EducationHeading)], f, r.education) else acc
  }

  // ---- skills: every skill, soft ones included, grouped by category ----

  function SkillsSection(acc: seq<Paragraph>, r: Resume): seq<Paragraph> {
    if |r.skills| > 0 then GroupParas(acc + [HeadingPara(SkillsHeading)], Group(r.skills)) else acc
  }

  // ---- projects ----

  /** The second run of the technologies line: the text as stored, or whatever the
      runtime makes of an array. */
  function TechnologiesRun(rt: WordRuntime, t: Technologies): string {
    match t
    case TechAbsent => ""
    case TechText(s) => s
    case TechList(xs) => rt.arrayText(xs)
  }

  /** `bold` and `size` given to the name's `Paragraph` are not paragraph options, so the
      name is a plain paragraph. */
  function ProjectEntryParas(acc: seq<Paragraph>, rt: WordRuntime, p: Project): seq<Paragraph> {
    var a0 := acc + [TextPara(Text(p.name), 50)];
    var a1 := if Truthy(p.description) then a0 + [TextPara(p.description.s, 100)] else a0;
    if TechTruthy(p.technologies) then a1 + [TitleLine("Technologies: ", TechnologiesRun(rt, p.technologies), None, 200)] else a1
  }

  function ProjectParas(acc: seq<Paragraph>, rt: WordRuntime, xs: seq<Project>): seq<Paragraph>
    decreases |xs|
  {
    if xs == [] then acc else ProjectEntryParas(ProjectParas(acc, rt, xs[..|xs| - 1]), rt, xs[|xs| - 1])
  }

  function ProjectsSection(acc: seq<Paragraph>, rt: WordRuntime, r: Resume): seq<Paragraph> {
    if |r.projects| > 0 then ProjectParas(acc + [HeadingPara(ProjectsHeading)], rt, r.projects) else acc
  }

  // ---- certifications and languages ----

  /** The certificate line reads `issuer`, a field the certifications editor does not fill. */
  function CertificationEntryParas(acc: seq<Paragraph>, f: DateFormat, c: Certification): seq<Paragraph> {
    var a0 := acc + [TitleLine(Text(c.name), Suffix(c.issuer), None, 50)];
    if Truthy(c.issueDate) then a0 + [TextPara(FormatDate(f, c.issueDate), 200)] else a0
  }

  function CertificationParas(acc: seq<Paragraph>, f: DateFormat, xs: seq<Certification>): seq<Paragraph>
    decreases |xs|
  {
    if xs == [] then acc else CertificationEntryParas(CertificationParas(acc, f, xs[..|xs| - 1]), f, xs[|xs| - 1])
  }

  function CertificationsSection(acc: seq<Paragraph>, f: DateFormat, r: Resume): seq<Paragraph> {
    if |r.certifications| > 0 then CertificationParas(acc + [HeadingPara(CertificationsHeading)], f, r.certifications) else acc
  }

  function LanguagePara(l: Language): Paragraph {
    TitleLine(Text(l.name), Suffix(l.proficiency), None, 100)
  }

  function LanguageParas(acc: seq<Paragraph>, xs: seq<Language>): seq<Paragraph>
    decreases |xs|
  {
    if xs == [] then acc else LanguageParas(acc, xs[..|xs| - 1]) + [LanguagePara(xs[|xs| - 1])]
  }

  function LanguagesSection(acc: seq<Paragraph>, r: Resume): seq<Paragraph> {
    if |r.languages| > 0 then LanguageParas(acc + [HeadingPara(LanguagesHeading)], r.languages) else acc
  }

  /** The paragraphs pushed before the skills section: header, summary, experience and
      education. */
  function WordBeforeSkills(rt: WordRuntime, r: Resume): seq<Paragraph> {
    EducationSection(ExperienceSection(SummarySection(HeaderSection(r), r), rt.dates, r), rt.dates, r)
  }

  /** Every paragraph `exportToWord` pushes, in order. References are never read. */
  function WordProgram(rt: WordRuntime, r: Resume): seq<Paragraph> {
    var a0 := SummarySection(HeaderSection(r), r);
    var a1 := ExperienceSection(a0, rt.dates, r);
    var a2 := EducationSection(a1, rt.dates, r);
    var a3 := SkillsSection(a2, r);
    var a4 := ProjectsSection(a3, rt, r);
    var a5 := CertificationsSection(a4, rt.dates, r);
    LanguagesSection(a5, r)
  }

  // ---- the section headings ----

  /** The texts of the `HEADING_1` paragraphs among `ps`, in order (the name is a `TITLE`). */
  function WordHeadings(ps: seq<Paragraph>): seq<string>
    decreases |ps|
  {
    if ps == [] then []
    else
      var last := ps[|ps| - 1];
      WordHeadings(ps[..|ps| - 1]) + (if last.style == Heading1 then [ParagraphText(last)] else [])
  }

  /** The sections of this exporter in their order, each with its presence test. */
  function WordCandidates(r: Resume): (cs: seq<Candidate>)
    ensures |cs| == 7
  {
    [ Candidate(Truthy(r.summary), SummaryHeading),
      Candidate(|r.experience| > 0, ExperienceHeading),
      Candidate(|r.education| > 0, EducationHeading),
      Candidate(|r.skills| > 0, SkillsHeading),
      Candidate(|r.projects| > 0, ProjectsHeading),
      Candidate(|r.certifications| > 0, CertificationsHeading),
      Candidate(|r.languages| > 0, LanguagesHeading) ]
  }

  function WordTitles(r: Resume): seq<string> {
    Selected(WordCandidates(r))
  }

  lemma WordCandidatesAppended(r: Resume)
    ensures WordCandidates(r) ==
      [] + [Candidate(Truthy(r.summary), SummaryHeading)]
         + [Candidate(|r.experience| > 0, ExperienceHeading)]
         + [Candidate(|r.education| > 0, EducationHeading)]
         + [Candidate(|r.skills| > 0, SkillsHeading)]
         + [Candidate(|r.projects| > 0, ProjectsHeading)]
         + [Candidate(|r.certifications| > 0, CertificationsHeading)]
         + [Candidate(|r.languages| > 0, LanguagesHeading)]
  {
  }

  /** `WordTitles` built one section at a time, as the exporter emits them. */
  lemma WordCandidatesSnoc(r: Resume)
    ensures WordTitles(r) ==
      [] + Emitted(Candidate(Truthy(r.summary), SummaryHeading))
         + Emitted(Candidate(|r.experience| > 0, ExperienceHeading))
         + Emitted(Candidate(|r.education| > 0, EducationHeading))
         + Emitted(Candidate(|r.skills| > 0, SkillsHeading))
         + Emitted(Candidate(|r.projects| > 0, ProjectsHeading))
         + Emitted(Candidate(|r.certifications| > 0, CertificationsHeading))
         + Emitted(Candidate(|r.languages| > 0, LanguagesHeading))
  {
    var c := [] + [Candidate(Truthy(r.summary), SummaryHeading)];
    SelectedSnoc([], Candidate(Truthy(r.summary), SummaryHeading));
    SelectedSnoc(c, Candidate(|r.experience| > 0, ExperienceHeading));
    c := c + [Candidate(|r.experience| > 0, ExperienceHeading)];
    SelectedSnoc(c, Candidate(|r.education| > 0, EducationHeading));
    c := c + [Candidate(|r.education| > 0, EducationHeading)];
    SelectedSnoc(c, Candidate(|r.skills| > 0, SkillsHeading));
    c := c + [Candidate(|r.skills| > 0, SkillsHeading)];
    SelectedSnoc(c, Candidate(|r.projects| > 0, ProjectsHeading));
    c := c + [Candidate(|r.projects| > 0, ProjectsHeading)];
    SelectedSnoc(c, Candidate(|r.certifications| > 0, CertificationsHeading));
    c := c + [Candidate(|r.certifications| > 0, CertificationsHeading)];
    SelectedSnoc(c, Candidate(|r.languages| > 0, LanguagesHeading));
    WordCandidatesAppended(r);
  }

  /** A paragraph of another style leaves the heading sequence alone. */
  lemma Plain1(s: seq<Paragraph>, p: Paragraph)
    requires p.style != Heading1
    ensures WordHeadings(s + [p]) == WordHeadings(s)
  {
    assert (s + [p])[..|s|] == s;
  }

  lemma HeadingPushed(s: seq<Paragraph>, title: string)
    ensures WordHeadings(s + [HeadingPara(title)]) == WordHeadings(s) + [title]
  {
    assert (s + [HeadingPara(title)])[..|s|] == s;
    RunsTextSingle(Plain(title));
  }

  lemma HeaderNoHeadings(r: Resume)
    ensures WordHeadings(HeaderSection(r)) == []
  {
    if r.personalInfo.Some? {
      var p := r.personalInfo.value;
      var a0 := [] + [Paragraph(Title, [Plain(Or(p.fullName, "Your Name"))], Centered, 0, 100, false)];
      Plain1([], Paragraph(Title, [Plain(Or(p.fullName, "Your Name"))], Centered, 0, 100, false));
      var contact := WordContactParts(p);
      var a1 := a0;
      if |contact| > 0 {
        Plain1(a0, Centred(Join(contact, " | "), 200));
        a1 := a0 + [Centred(Join(contact, " | "), 200)];
      }
      var links := LinkParts(p);
      if |links| > 0 {
        Plain1(a1, Centred(Join(links, " | "), 300));
      }
    }
  }

  lemma {:induction false} AchievementsNoHeadings(acc: seq<Paragraph>, items: seq<string>)
    ensures WordHeadings(AchievementParas(acc, items)) == WordHeadings(acc)
    decreases |items|
  {
    if items != [] {
      AchievementsNoHeadings(acc, items[..|items| - 1]);
      Plain1(AchievementParas(acc, items[..|items| - 1]), TextPara(MisencodedBullet + items[|items| - 1], 50));
    }
  }

  lemma {:induction false} ExperienceEntryNoHeadings(acc: seq<Paragraph>, f: DateFormat, e: Experience)
    ensures WordHeadings(ExperienceEntryParas(acc, f, e)) == WordHeadings(acc)
  {
    Plain1(acc, TitleLine(Text(e.position), Suffix(e.company), Some(24), 50));
    var a0 := acc + [TitleLine(Text(e.position), Suffix(e.company), Some(24), 50)];
    var dates := DateLine(f, e);
    var a1 := a0;
    if dates.Some? {
      Plain1(a0, TextPara(dates.value, 100));
      a1 := a0 + [TextPara(dates.value, 100)];
    }
    var a2 := a1;
    if Truthy(e.description) {
      Plain1(a1, TextPara(e.description.s, 100));
      a2 := a1 + [TextPara(e.description.s, 100)];
    }
    AchievementsNoHeadings(a2, AchievementItems(e.achievements));
    Plain1(AchievementParas(a2, AchievementItems(e.achievements)), TextPara("", 200));
  }

  lemma {:induction false} ExperienceNoHeadings(acc: seq<Paragraph>, f: DateFormat, xs: seq<Experience>)
    ensures WordHeadings(ExperienceParas(acc, f, xs)) == WordHeadings(acc)
    decreases |xs|
  {
    if xs != [] {
      ExperienceNoHeadings(acc, f, xs[..|xs| - 1]);
      ExperienceEntryNoHeadings(ExperienceParas(acc, f, xs[..|xs| - 1]), f, xs[|xs| - 1]);
    }
  }

  lemma {:induction false} EducationEntryNoHeadings(acc: seq<Paragraph>, f: DateFormat, e: Education)
    ensures WordHeadings(EducationEntryParas(acc, f, e)) == WordHeadings(acc)
  {
    Plain1(acc, TitleLine(Text(e.degree), Suffix(e.institution), Some(24), 50));
    var a0 := acc + [TitleLine(Text(e.degree), Suffix(e.institution), Some(24), 50)];
    var a1 := a0;
    if Truthy(e.graduationDate) {
      Plain1(a0, TextPara(FormatDate(f, e.graduationDate), 100));
      a1 := a0 + [TextPara(FormatDate(f, e.graduationDate), 100)];
    }
    if Truthy(e.gpa) {
      Plain1(a1, TextPara("GPA: " + e.gpa.s, 200));
    }
  }

  lemma {:induction false} EducationNoHeadings(acc: seq<Paragraph>, f: DateFormat, xs: seq<Education>)
    ensures WordHeadings(EducationParas(acc, f, xs)) == WordHeadings(acc)
    decreases |xs|
  {
    if xs != [] {
      EducationNoHeadings(acc, f, xs[..|xs| - 1]);
      EducationEntryNoHeadings(EducationParas(acc, f, xs[..|xs| - 1]), f, xs[|xs| - 1]);
    }
  }

  lemma {:induction false} GroupsNoHeadings(acc: seq<Paragraph>, gs: seq<CategoryGroup>)
    ensures WordHeadings(GroupParas(acc, gs)) == WordHeadings(acc)
    decreases |gs|
  {
    if gs != [] {
      GroupsNoHeadings(acc, gs[..|gs| - 1]);
      Plain1(GroupParas(acc, gs[..|gs| - 1]), GroupPara(gs[|gs| - 1]));
    }
  }

  lemma {:induction false} ProjectEntryNoHeadings(acc: seq<Paragraph>, rt: WordRuntime, p: Project)
    ensures WordHeadings(ProjectEntryParas(acc, rt, p)) == WordHeadings(acc)
  {
    Plain1(acc, TextPara(Text(p.name), 50));
    var a0 := acc + [TextPara(Text(p.name), 50)];
    var a1 := a0;
    if Truthy(p.description) {
      Plain1(a0, TextPara(p.description.s, 100));
      a1 := a0 + [TextPara(p.description.s, 100)];
    }
    if TechTruthy(p.technologies) {
      Plain1(a1, TitleLine("Technologies: ", TechnologiesRun(rt, p.technologies), None, 200));
    }
  }

  lemma {:induction false} ProjectsNoHeadings(acc: seq<Paragraph>, rt: WordRuntime, xs: seq<Project>)
    ensures WordHeadings(ProjectParas(acc, rt, xs)) == WordHeadings(acc)
    decreases |xs|
  {
    if xs != [] {
      ProjectsNoHeadings(acc, rt, xs[..|xs| - 1]);
      ProjectEntryNoHeadings(ProjectParas(acc, rt, xs[..|xs| - 1]), rt, xs[|xs| - 1]);
    }
  }

  lemma {:induction false} CertificationEntryNoHeadings(acc: seq<Paragraph>, f: DateFormat, c: Certification)
    ensures WordHeadings(CertificationEntryParas(acc, f, c)) == WordHeadings(acc)
  {
    Plain1(acc, TitleLine(Text(c.name), Suffix(c.issuer), None, 50));
    if Truthy(c.issueDate) {
      Plain1(acc + [TitleLine(Text(c.name), Suffix(c.issuer), None, 50)], TextPara(FormatDate(f, c.issueDate), 200));
    }
  }

  lemma {:induction false} CertificationsNoHeadings(acc: seq<Paragraph>, f: DateFormat, xs: seq<Certification>)
    ensures WordHeadings(CertificationParas(acc, f, xs)) == WordHeadings(acc)
    decreases |xs|
  {
    if xs != [] {
      CertificationsNoHeadings(acc, f, xs[..|xs| - 1]);
      CertificationEntryNoHeadings(CertificationParas(acc, f, xs[..|xs| - 1]), f, xs[|xs| - 1]);
    }
  }

  lemma {:induction false} LanguagesNoHeadings(acc: seq<Paragraph>, xs: seq<Language>)
    ensures WordHeadings(LanguageParas(acc, xs)) == WordHeadings(acc)
    decreases |xs|
  {
    if xs != [] {
      LanguagesNoHeadings(acc, xs[..|xs| - 1]);
      Plain1(LanguageParas(acc, xs[..|xs| - 1]), LanguagePara(xs[|xs| - 1]));
    }
  }

  lemma SummaryHeadings(acc: seq<Paragraph>, r: Resume)
    ensures WordHeadings(SummarySection(acc, r)) == WordHeadings(acc) + Emitted(Candidate(Truthy(r.summary), SummaryHeading))
  {
    if Truthy(r.summary) {
      HeadingPushed(acc, SummaryHeading);
      Plain1(acc + [HeadingPara(SummaryHeading)], TextPara(r.summary.s, 300));
    }
  }

  lemma ExperienceHeadings(acc: seq<Paragraph>, f: DateFormat, r: Resume)
    ensures WordHeadings(ExperienceSection(acc, f, r)) == WordHeadings(acc) + Emitted(Candidate(|r.experience| > 0, ExperienceHeading))
  {
    if |r.experience| > 0 {
      HeadingPushed(acc, ExperienceHeading);
      ExperienceNoHeadings(acc + [HeadingPara(ExperienceHeading)], f, r.experience);
    }
  }

  lemma EducationHeadings(acc: seq<Paragraph>, f: DateFormat, r: Resume)
    ensures WordHeadings(EducationSection(acc, f, r)) == WordHeadings(acc) + Emitted(Candidate(|r.education| > 0, EducationHeading))
  {
    if |r.education| > 0 {
      HeadingPushed(acc, EducationHeading);
      EducationNoHeadings(acc + [HeadingPara(EducationHeading)], f, r.education);
    }
  }

  lemma SkillsHeadings(acc: seq<Paragraph>, r: Resume)
    ensures WordHeadings(SkillsSection(acc, r)) == WordHeadings(acc) + Emitted(Candidate(|r.skills| > 0, SkillsHeading))
  {
    if |r.skills| > 0 {
      HeadingPushed(acc, SkillsHeading);
      GroupsNoHeadings(acc + [HeadingPara(SkillsHeading)], Group(r.skills));
    }
  }

  lemma ProjectsHeadings(acc: seq<Paragraph>, rt: WordRuntime, r: Resume)
    ensures WordHeadings(ProjectsSection(acc, rt, r)) == WordHeadings(acc) + Emitted(Candidate(|r.projects| > 0, ProjectsHeading))
  {
    if |r.projects| > 0 {
      HeadingPushed(acc, ProjectsHeading);
      ProjectsNoHeadings(acc + [HeadingPara(ProjectsHeading)], rt, r.projects);
    }
  }

  lemma CertificationsHeadings(acc: seq<Paragraph>, f: DateFormat, r: Resume)
    ensures WordHeadings(CertificationsSection(acc, f, r)) == WordHeadings(acc) + Emitted(Candidate(|r.certifications| > 0, CertificationsHeading))
  {
    if |r.certifications| > 0 {
      HeadingPushed(acc, CertificationsHeading);
      CertificationsNoHeadings(acc + [HeadingPara(CertificationsHeading)], f, r.certifications);
    }
  }

  lemma LanguagesHeadings(acc: seq<Paragraph>, r: Resume)
    ensures WordHeadings(LanguagesSection(acc, r)) == WordHeadings(acc) + Emitted(Candidate(|r.languages| > 0, LanguagesHeading))
  {
    if |r.languages| > 0 {
      HeadingPushed(acc, LanguagesHeading);
      LanguagesNoHeadings(acc + [HeadingPara(LanguagesHeading)], r.languages);
    }
  }

  /** The document's headings are the present sections in the fixed order Professional
      Summary, Work Experience, Education, Skills, Projects, Certifications, Languages. */
  lemma WordProgramHeadings(rt: WordRuntime, r: Resume)
    ensures WordHeadings(WordProgram(rt, r)) == WordTitles(r)
  {
    HeaderNoHeadings(r);
    var a0 := SummarySection(HeaderSection(r), r);
    SummaryHeadings(HeaderSection(r), r);
    var a1 := ExperienceSection(a0, rt.dates, r);
    ExperienceHeadings(a0, rt.dates, r);
    var a2 := EducationSection(a1, rt.dates, r);
    EducationHeadings(a1, rt.dates, r);
    var a3 := SkillsSection(a2, r);
    SkillsHeadings(a2, r);
    var a4 := ProjectsSection(a3, rt, r);
    ProjectsHeadings(a3, rt, r);
    var a5 := CertificationsSection(a4, rt.dates, r);
    CertificationsHeadings(a4, rt.dates, r);
    LanguagesHeadings(a5, r);
    WordCandidatesSnoc(r);
  }

  /** Each heading appears exactly when its list (or the summary) is non-empty. */
  lemma WordTitlesPresence(r: Resume)
    ensures SummaryHeading in WordTitles(r) <==> Truthy(r.summary)
    ensures ExperienceHeading in WordTitles(r) <==> |r.experience| > 0
    ensures EducationHeading in WordTitles(r) <==> |r.education| > 0
    ensures SkillsHeading in WordTitles(r) <==> |r.skills| > 0
    ensures ProjectsHeading in WordTitles(r) <==> |r.projects| > 0
    ensures CertificationsHeading in WordTitles(r) <==> |r.certifications| > 0
    ensures LanguagesHeading in WordTitles(r) <==> |r.languages| > 0
  {
    var cs := WordCandidates(r);
    SelectedMembers(cs);
    forall k | 0 <= k < |cs| ensures cs[k].title in Selected(cs) <==> cs[k].present {
      if cs[k].title in Selected(cs) {
        var i :| 0 <= i < |cs| && cs[i].present && cs[i].title == cs[k].title;
        assert i == k;
      }
    }
    assert cs[0].title == SummaryHeading && cs[1].title == ExperienceHeading;
    assert cs[2].title == EducationHeading && cs[3].title == SkillsHeading;
    assert cs[4].title == ProjectsHeading && cs[5].title == CertificationsHeading;
    assert cs[6].title == LanguagesHeading;
  }

  /** Projects never count as experience here: a resume with projects only has no Work
      Experience heading but a Projects one. */
  lemma ProjectsAreNotExperience(rt: WordRuntime, r: Resume)
    requires |r.experience| == 0 && |r.projects| > 0
    ensures ExperienceHeading !in WordHeadings(WordProgram(rt, r))
    ensures ProjectsHeading in WordHeadings(WordProgram(rt, r))
  {
    WordProgramHeadings(rt, r);
    WordTitlesPresence(r);
  }

  /** The references list has no influence on the document. */
  lemma ReferencesIgnored(rt: WordRuntime, r: Resume, refs: seq<Reference>)
    ensures WordProgram(rt, r.(references := refs)) == WordProgram(rt, r)
  {
    var r' := r.(references := refs);
    assert HeaderSection(r') == HeaderSection(r);
    assert SummarySection(HeaderSection(r), r') == SummarySection(HeaderSection(r), r);
  }

  // ---- entry-level properties ----

  /** The date line ignores `current`: an entry marked current that has an end date shows
      that date, and one with no end date reads 'Present' either way. */
  lemma DateLineIgnoresCurrent(f: DateFormat, e: Experience, current: bool)
    ensures DateLine(f, e.(current := current)) == DateLine(f, e)
  {
  }

  /** A current entry with an end date shows the end date rather than 'Present', unlike
      the ATS exporters. */
  lemma CurrentWithEndDate(f: DateFormat, e: Experience)
    requires e.current && Truthy(e.startDate) && Truthy(e.endDate)
    ensures DateLine(f, e) == Some(f.monthYear(e.startDate.s) + " - " + f.monthYear(e.endDate.s))
    ensures ExperienceDates(f, e) == f.monthYear(e.startDate.s) + " - Present"
  {
  }

  /** Each achievement becomes exactly one bullet paragraph, in order, after `acc`. */
  lemma {:induction false} AchievementBullets(acc: seq<Paragraph>, items: seq<string>)
    ensures |AchievementParas(acc, items)| == |acc| + |items|
    ensures AchievementParas(acc, items)[..|acc|] == acc
    ensures forall k :: 0 <= k < |items| ==> AchievementParas(acc, items)[|acc| + k] == TextPara(MisencodedBullet + items[k], 50)
    decreases |items|
  {
    if items != [] {
      var init := items[..|items| - 1];
      AchievementBullets(acc, init);
      var prev := AchievementParas(acc, init);
      forall k | 0 <= k < |items| ensures AchievementParas(acc, items)[|acc| + k] == TextPara(MisencodedBullet + items[k], 50) {
        if k < |init| {
          assert items[k] == init[k];
          assert AchievementParas(acc, items)[|acc| + k] == prev[|acc| + k];
        }
      }
      assert AchievementParas(acc, items)[..|acc|] == prev[..|acc|];
    }
  }

  /** A single achievement stored as text yields one bullet; an empty text or no value
      yields none, while an empty list is truthy but yields none as well. */
  lemma AchievementCoercion(acc: seq<Paragraph>, s: string)
    ensures s != "" ==> AchievementParas(acc, AchievementItems(AchText(s))) == acc + [TextPara(MisencodedBullet + s, 50)]
    ensures AchievementParas(acc, AchievementItems(AchText(""))) == acc
    ensures AchievementParas(acc, AchievementItems(AchAbsent)) == acc
    ensures AchTruthy(AchList([])) && AchievementParas(acc, AchievementItems(AchList([]))) == acc
  {
    if s != "" {
      assert [s][..0] == [];
    }
  }

  /** The title line: `position || ''` in bold, then ' - company' only when the company is
      set; the line reads the same with or without a position. */
  lemma PositionLine(e: Experience)
    ensures ParagraphText(TitleLine(Text(e.position), Suffix(e.company), Some(24), 50)) ==
      Text(e.position) + (if Truthy(e.company) then " - " + e.company.s else "")
  {
    var runs := [Run(Text(e.position), true, false, Some(24)), Run(Suffix(e.company), false, false, Some(24))];
    assert runs[..1] == [runs[0]];
    RunsTextSingle(runs[0]);
  }

  /** A single skill filed under "toString" makes the written `skillsByCategory` fill
      throw, so (by `GroupByCategory` and `ExportToWord`) the Word export fails with
      "Failed to export Word document" although the intended grouping has one group. */
  lemma ToStringCategoryFails()
    ensures GroupAsWritten([Skill(Null, Str("Excel"), Str("toString"), Null, 0)]).Err?
    ensures |Group([Skill(Null, Str("Excel"), Str("toString"), Null, 0)])| == 1
  {
    var s := [Skill(Null, Str("Excel"), Str("toString"), Null, 0)];
    GroupAsWrittenFails(s);
    assert CategoryOf(s[0]) in PrototypeMembers;
    assert s[..0] == [];
  }

  /** The Word exporter groups every skill, 'Soft Skills' included, whereas the ATS
      technical groups never hold that category. */
  lemma SoftSkillsGrouped(skills: seq<Skill>, i: nat)
    requires i < |skills| && skills[i].category == Str(SoftSkillsCategory)
    ensures SoftSkillsCategory in Categories(Group(skills))
    ensures SoftSkillsCategory !in Categories(Group(TechnicalSkills(skills)))
  {
    GroupCorrect(skills);
    assert CategoryOf(skills[i]) == SoftSkillsCategory;
    var t := TechnicalSkills(skills);
    SkillsPartition(skills);
    forall j | 0 <= j < |t| ensures CategoryOf(t[j]) != SoftSkillsCategory {
      assert t[j] in t;
    }
    GroupCorrect(t);
  }

  // ---- the builder ----

  /** `exportToWord(resumeData)`. `saved` is whether `Packer.toBlob` and `saveAs` succeed;
      any failure surfaces as the one fixed error. When filling `skillsByCategory` throws,
      the paragraphs end with the Skills heading and the export fails. */
  method ExportToWord(rt: WordRuntime, r: Resume, saved: bool) returns (sections: seq<Paragraph>, status: Status)
    ensures GroupAsWritten(r.skills).Ok? ==>
      sections == WordProgram(rt, r) && WordHeadings(sections) == WordTitles(r) &&
      status == (if saved then Success else Failed(WordExportError))
    ensures GroupAsWritten(r.skills).Err? ==>
      sections == WordBeforeSkills(rt, r) + [HeadingPara(SkillsHeading)] && status == Failed(WordExportError)
  {
    sections := [];
    if r.personalInfo.Some? {
      sections := PushHeader(sections, r.personalInfo.value);
    }
    if Truthy(r.summary) {
      sections := sections + [HeadingPara(SummaryHeading)] + [TextPara(r.summary.s, 300)];
    }
    if |r.experience| > 0 {
      sections := sections + [HeadingPara(ExperienceHeading)];
      sections := PushExperience(sections, rt.dates, r.experience);
    }
    if |r.education| > 0 {
      sections := sections + [HeadingPara(EducationHeading)];
      sections := PushEducation(sections, rt.dates, r.education);
    }
    if |r.skills| > 0 {
      sections := sections + [HeadingPara(SkillsHeading)];
      var thrown;
      sections, thrown := PushSkills(sections, r.skills);
      if thrown {
        status := Failed(WordExportError);
        return;
      }
    }
    sections := PushClosing(sections, rt, r);
    WordProgramHeadings(rt, r);
    status := if saved then Success else Failed(WordExportError);
  }

  method PushHeader(sections: seq<Paragraph>, p: PersonalInfo) returns (out: seq<Paragraph>)
    ensures out == HeaderParas(sections, p)
  {
    out := sections + [Paragraph(Title, [Plain(Or(p.fullName, "Your Name"))], Centered, 0, 100, false)];
    var contact := WordContactParts(p);
    if |contact| > 0 {
      out := out + [Centred(Join(contact, " | "), 200)];
    }
    var links := LinkParts(p);
    if |links| > 0 {
      out := out + [Centred(Join(links, " | "), 300)];
    }
  }

  method PushExperience(sections: seq<Paragraph>, f: DateFormat, xs: seq<Experience>) returns (out: seq<Paragraph>)
    ensures out == ExperienceParas(sections, f, xs)
  {
    out := sections;
    for i := 0 to |xs|
      invariant out == ExperienceParas(sections, f, xs[..i])
    {
      out := PushExperienceEntry(out, f, xs[i]);
      assert xs[..i + 1][..i] == xs[..i];
    }
    assert xs[..|xs|] == xs;
  }

  method PushExperienceEntry(sections: seq<Paragraph>, f: DateFormat, e: Experience) returns (out: seq<Paragraph>)
    ensures out == ExperienceEntryParas(sections, f, e)
  {
    out := sections + [TitleLine(Text(e.position), Suffix(e.company), Some(24), 50)];
    if Truthy(e.startDate) || Truthy(e.endDate) {
      var start := if Truthy(e.startDate) then f.monthYear(e.startDate.s) else "";
      var end := if Truthy(e.endDate) then f.monthYear(e.endDate.s) else "Present";
      out := out + [TextPara(start + " - " + end, 100)];
    }
    if Truthy(e.description) {
      out := out + [TextPara(e.description.s, 100)];
    }
    if AchTruthy(e.achievements) {
      var items := if e.achievements.AchList? then e.achievements.items else [e.achievements.text];
      ghost var before := out;
      for i := 0 to |items|
        invariant out == AchievementParas(before, items[..i])
      {
        out := out + [TextPara(MisencodedBullet + items[i], 50)];
        assert items[..i + 1][..i] == items[..i];
      }
      assert items[..|items|] == items;
    }
    out := out + [TextPara("", 200)];
  }

  method PushEducation(sections: seq<Paragraph>, f: DateFormat, xs: seq<Education>) returns (out: seq<Paragraph>)
    ensures out == EducationParas(sections, f, xs)
  {
    out := sections;
    for i := 0 to |xs|
      invariant out == EducationParas(sections, f, xs[..i])
    {
      var e := xs[i];
      out := out + [TitleLine(Text(e.degree), Suffix(e.institution), Some(24), 50)];
      if Truthy(e.graduationDate) {
        out := out + [TextPara(f.monthYear(e.graduationDate.s), 100)];
      }
      if Truthy(e.gpa) {
        out := out + [TextPara("GPA: " + e.gpa.s, 200)];
      }
      assert xs[..i + 1][..i] == xs[..i];
    }
    assert xs[..|xs|] == xs;
  }

  /** The `skillsByCategory` object filled in place, one skill at a time, as an ordered
      list of groups. A category naming an Object.prototype member finds the inherited
      member, so `.push` throws; otherwise the result is one group per distinct category
      in order of first appearance. */
  method GroupByCategory(skills: seq<Skill>) returns (grouped: Result<seq<CategoryGroup>>)
    ensures grouped == GroupAsWritten(skills)
    ensures grouped.Err? <==> exists i :: 0 <= i < |skills| && CategoryOf(skills[i]) in PrototypeMembers
    ensures grouped.Ok? ==> grouped.value == Group(skills) && Distinct(Categories(grouped.value))
    ensures grouped.Ok? ==>
      forall c :: c in Categories(grouped.value) <==> exists i :: 0 <= i < |skills| && CategoryOf(skills[i]) == c
  {
    GroupAsWrittenFails(skills);
    GroupCorrect(skills);
    var groups: seq<CategoryGroup> := [];
    for i := 0 to |skills|
      invariant GroupAsWritten(skills[..i]) == Ok(groups)
    {
      var category := CategoryOf(skills[i]);
      assert skills[..i + 1][..i] == skills[..i];
      if category in PrototypeMembers {
        GroupAsWrittenSticks(skills, i + 1);
        grouped := Err(PushFailure);
        return;
      }
      groups := AddToGroups(groups, category, skills[i].name);
    }
    assert skills[..|skills|] == skills;
    grouped := Ok(groups);
  }

  /** The groups as `Category: names` paragraphs; `thrown` is whether the grouping throws. */
  method PushSkills(sections: seq<Paragraph>, skills: seq<Skill>) returns (out: seq<Paragraph>, thrown: bool)
    ensures thrown <==> GroupAsWritten(skills).Err?
    ensures thrown ==> out == sections
    ensures !thrown ==> out == GroupParas(sections, Group(skills))
  {
    out := sections;
    var grouped := GroupByCategory(skills);
    if grouped.Err? {
      thrown := true;
      return;
    }
    thrown := false;
    var groups := grouped.value;
    for i := 0 to |groups|
      invariant out == GroupParas(sections, groups[..i])
    {
      out := out + [GroupPara(groups[i])];
      assert groups[..i + 1][..i] == groups[..i];
    }
    assert groups[..|groups|] == groups;
  }

  /** The project, certification and language sections. */
  method PushClosing(sections: seq<Paragraph>, rt: WordRuntime, r: Resume) returns (out: seq<Paragraph>)
    ensures out == LanguagesSection(CertificationsSection(ProjectsSection(sections, rt, r), rt.dates, r), r)
  {
    out := sections;
    if |r.projects| > 0 {
      out := out + [HeadingPara(ProjectsHeading)];
      ghost var before := out;
      for i := 0 to |r.projects|
        invariant out == ProjectParas(before, rt, r.projects[..i])
      {
        var p := r.projects[i];
        out := out + [TextPara(Text(p.name), 50)];
        if Truthy(p.description) {
          out := out + [TextPara(p.description.s, 100)];
        }
        if TechTruthy(p.technologies) {
          out := out + [TitleLine("Technologies: ", TechnologiesRun(rt, p.technologies), None, 200)];
        }
        assert r.projects[..i + 1][..i] == r.projects[..i];
      }
      assert r.projects[..|r.projects|] == r.projects;
    }
    if |r.certifications| > 0 {
      out := out + [HeadingPara(CertificationsHeading)];
      ghost var before := out;
      for i := 0 to |r.certifications|
        invariant out == CertificationParas(before, rt.dates, r.certifications[..i])
      {
        var c := r.certifications[i];
        out := out + [TitleLine(Text(c.name), Suffix(c.issuer), None, 50)];
        if Truthy(c.issueDate) {
          out := out + [TextPara(rt.dates.monthYear(c.issueDate.s), 200)];
        }
        assert r.certifications[..i + 1][..i] == r.certifications[..i];
      }
      assert r.certifications[..|r.certifications|] == r.certifications;
    }
    if |r.languages| > 0 {
      out := out + [HeadingPara(LanguagesHeading)];
      ghost var before := out;
      for i := 0 to |r.languages|
        invariant out == LanguageParas(before, r.languages[..i])
      {
        out := out + [LanguagePara(r.languages[i])];
        assert r.languages[..i + 1][..i] == r.languages[..i];
      }
      assert r.languages[..|r.languages|] == r.languages;
    }
  }

  // ---- the format label ----

  /** `formats[format] || format` with the two Word-era formats. */
  function WordFormatLabel(format: string): (r: Label)
    ensures format == "pdf" ==> r == Label("PDF Document")
    ensures format == "word" ==> r == Label("Word Document (.docx)")
    ensures r == Label(format) <==> format !in {"pdf", "word"} && format !in PrototypeMembers
    ensures r.Inherited? <==> format in PrototypeMembers
  {
    if format == "pdf" then Label("PDF Document")
    else if format == "word" then Label("Word Document (.docx)")
    else if format in PrototypeMembers then Inherited(format)
    else Label(format)
  }
}
