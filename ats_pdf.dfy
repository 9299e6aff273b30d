/** `exportToATSPDF`: the calls the exporter makes for each section of a resume, and
    the exporter itself, which makes those calls on a `PdfDocument`.
    Each `...Calls(acc, ...)` function extends the calls made so far, `acc`, with the
    calls one part of the exporter makes, in the order it makes them. */
module AtsPdf {
  import opened Js
  import opened Strings
  import opened ResumeModel
  import opened SkillGroups
  import opened AtsContent
  import opened PdfLayout

  const Dark: string := "#1a202c"
  const Grey: string := "#4a5568"
  const Light: string := "#718096"
  const Ink: string := "#2d3748"

  /** The header: name (or 'Your Name'), title, location, phone/email, links. */
  function HeaderCalls(acc: seq<Block>, p: PersonalInfo): seq<Block> {
    var a0 := acc + [Line(Or(p.fullName, "Your Name"), 20, Bold, Center, Accent)] + [Gap(5)];
    var a1 := if Truthy(p.title) then a0 + [Line(p.title.s, 12, Normal, Center, Grey)] + [Gap(5)] else a0;
    var a2 := if Truthy(p.location) then a1 + [Line(p.location.s, 10, Normal, Center, Grey)] + [Gap(5)] else a1;
    var contact := PdfContactParts(p);
    var a3 := if |contact| > 0 then a2 + [Line(Join(contact, " | "), 10, Normal, Center, Grey)] + [Gap(5)] else a2;
    var links := LinkParts(p);
    if |links| > 0 then a3 + [Line(Join(links, " | "), 9, Normal, Center, Accent)] else a3
  }

  /** One bullet line and 3 points per achievement. */
  function AchievementCalls(acc: seq<Block>, items: seq<string>): seq<Block>
    decreases |items|
  {
    if items == [] then acc
    else AchievementCalls(acc, items[..|items| - 1]) + [Line(Bullet + items[|items| - 1], 10, Normal, Left, Grey)] + [Gap(3)]
  }

  /** One experience entry; `index` is its position in the list. Only an array of
      achievements is listed. */
  function ExperienceEntry(acc: seq<Block>, f: DateFormat, e: Experience, index: nat): seq<Block> {
    var a0 := if index > 0 then acc + [Gap(12)] else acc;
    var a1 := a0 + [Line(Text(e.position), 11, Bold, Left, Dark)] + [Gap(3)];
    var company := CompanyLine(e);
    var a2 := if company != "" then a1 + [Line(company, 10, Normal, Left, Grey)] + [Gap(3)] else a1;
    var a3 := a2 + [Line(ExperienceDates(f, e), 9, Italic, Left, Light)] + [Gap(5)];
    var a4 := if Truthy(e.description) then a3 + [Line(Bullet + e.description.s, 10, Normal, Left, Grey)] + [Gap(3)] else a3;
    if e.achievements.AchList? then AchievementCalls(a4, e.achievements.items) else a4
  }

  function ExperienceCalls(acc: seq<Block>, f: DateFormat, xs: seq<Experience>): seq<Block>
    decreases |xs|
  {
    if xs == [] then acc else ExperienceEntry(ExperienceCalls(acc, f, xs[..|xs| - 1]), f, xs[|xs| - 1], |xs| - 1)
  }

  /** One project entry; a gap precedes it unless it is the very first entry of the section. */
  function ProjectEntry(acc: seq<Block>, f: DateFormat, p: Project, gap: bool): seq<Block> {
    var a0 := if gap then acc + [Gap(12)] else acc;
    var a1 := a0 + [Line(Text(p.name), 11, Bold, Left, Dark)] + [Gap(3)];
    var dates := ProjectDates(f, p);
    var a2 := if dates.Some? then a1 + [Line(dates.value, 9, Italic, Left, Light)] + [Gap(5)] else a1;
    var a3 := if Truthy(p.description) then a2 + [Line(Bullet + p.description.s, 10, Normal, Left, Grey)] + [Gap(3)] else a2;
    if TechTruthy(p.technologies) then a3 + [Line(Bullet + "Technologies: " + TechnologiesText(p.technologies), 10, Normal, Left, Grey)] + [Gap(3)] else a3
  }

  function ProjectCalls(acc: seq<Block>, f: DateFormat, xs: seq<Project>, afterExperience: bool): seq<Block>
    decreases |xs|
  {
    if xs == [] then acc
    else ProjectEntry(ProjectCalls(acc, f, xs[..|xs| - 1], afterExperience), f, xs[|xs| - 1], |xs| - 1 > 0 || afterExperience)
  }

  function EducationEntry(acc: seq<Block>, f: DateFormat, e: Education, index: nat): seq<Block> {
    var a0 := if index > 0 then acc + [Gap(10)] else acc;
    var a1 := a0 + [Line(DegreeText(e), 11, Bold, Left, Dark)] + [Gap(3)];
    var institution := InstitutionLine(e);
    var a2 := if institution != "" then a1 + [Line(institution, 10, Normal, Left, Grey)] + [Gap(3)] else a1;
    var a3 := a2 + [Line(EducationDates(f, e), 9, Normal, Left, Light)];
    if Truthy(e.gpa) then a3 + [Gap(3)] + [Line("GPA: " + e.gpa.s, 9, Normal, Left, Grey)] else a3
  }

  function EducationCalls(acc: seq<Block>, f: DateFormat, xs: seq<Education>): seq<Block>
    decreases |xs|
  {
    if xs == [] then acc else EducationEntry(EducationCalls(acc, f, xs[..|xs| - 1]), f, xs[|xs| - 1], |xs| - 1)
  }

  /** One `Category: names` line and 5 points per group. */
  function GroupCalls(acc: seq<Block>, gs: seq<CategoryGroup>): seq<Block>
    decreases |gs|
  {
    if gs == [] then acc else GroupCalls(acc, gs[..|gs| - 1]) + [Line(GroupLine(gs[|gs| - 1]), 10, Normal, Left, Grey)] + [Gap(5)]
  }

  function CertificationEntry(acc: seq<Block>, f: DateFormat, c: Certification, index: nat): seq<Block> {
    var a0 := if index > 0 then acc + [Gap(8)] else acc;
    var a1 := a0 + [Line(CertHeader(f, c), 10, Bold, Left, Ink)];
    if Truthy(c.description) then a1 + [Gap(3)] + [Line(c.description.s, 9, Normal, Left, Grey)] else a1
  }

  function CertificationCalls(acc: seq<Block>, f: DateFormat, xs: seq<Certification>): seq<Block>
    decreases |xs|
  {
    if xs == [] then acc else CertificationEntry(CertificationCalls(acc, f, xs[..|xs| - 1]), f, xs[|xs| - 1], |xs| - 1)
  }

  function ReferenceEntry(acc: seq<Block>, r: Reference, index: nat): seq<Block> {
    var a0 := if index > 0 then acc + [Gap(10)] else acc;
    var a1 := a0 + [Line(Text(r.name), 10, Bold, Left, Ink)] + [Gap(3)];
    var a2 := if Truthy(r.position) then a1 + [Line(r.position.s, 9, Normal, Left, Grey)] else a1;
    var a3 := if Truthy(r.company) then a2 + [Gap(2)] + [Line(r.company.s, 9, Normal, Left, Grey)] else a2;
    var a4 := if Truthy(r.phone) then a3 + [Gap(2)] + [Line("Tel: " + r.phone.s, 9, Normal, Left, Grey)] else a3;
    if Truthy(r.email) then a4 + [Gap(2)] + [Line("Email: " + r.email.s, 9, Normal, Left, Grey)] else a4
  }

  function ReferenceCalls(acc: seq<Block>, xs: seq<Reference>): seq<Block>
    decreases |xs|
  {
    if xs == [] then acc else ReferenceEntry(ReferenceCalls(acc, xs[..|xs| - 1]), xs[|xs| - 1], |xs| - 1)
  }

  // ---- the sections, in the order the exporter emits them ----

  function HeaderSection(acc: seq<Block>, r: Resume): seq<Block> {
    if r.personalInfo.Some? then HeaderCalls(acc, r.personalInfo.value) else acc
  }

  function SummarySection(acc: seq<Block>, r: Resume): seq<Block> {
    if Truthy(r.summary) then acc + [Heading(SummaryTitle)] + [Line(r.summary.s, 10, Normal, Left, Ink)] else acc
  }

  function CompetenciesSection(acc: seq<Block>, r: Resume): seq<Block> {
    if |r.skills| > 0 then acc + [Heading(CompetenciesTitle)] + [Line(Competencies(r.skills), 10, Normal, Left, Ink)] else acc
  }

  /** Experience entries first, then projects, under one heading. */
  function ExperienceSection(acc: seq<Block>, f: DateFormat, r: Resume): seq<Block> {
    if |r.experience| > 0 || |r.projects| > 0 then
      var a := ExperienceCalls(acc + [Heading(ExperienceTitle(r.experienceType))], f, r.experience);
      ProjectCalls(a, f, r.projects, |r.experience| > 0)
    else acc
  }

  function EducationSection(acc: seq<Block>, f: DateFormat, r: Resume): seq<Block> {
    if |r.education| > 0 then EducationCalls(acc + [Heading(EducationTitle)], f, r.education) else acc
  }

  function TechnicalSection(acc: seq<Block>, r: Resume): seq<Block> {
    var technical := TechnicalSkills(r.skills);
    if |technical| > 0 then GroupCalls(acc + [Heading(TechnicalSkillsTitle)], Group(technical)) else acc
  }

  function SoftSection(acc: seq<Block>, r: Resume): seq<Block> {
    if |SoftSkills(r.skills)| > 0 then acc + [Heading(SoftSkillsTitle)] + [Line(SoftSkillsLine(r.skills), 10, Normal, Left, Grey)] else acc
  }

  function CertificationSection(acc: seq<Block>, f: DateFormat, r: Resume): seq<Block> {
    if |r.certifications| > 0 then CertificationCalls(acc + [Heading(CertificationsTitle)], f, r.certifications) else acc
  }

  function LanguageSection(acc: seq<Block>, r: Resume): seq<Block> {
    if |r.languages| > 0 then acc + [Heading(LanguagesTitle)] + [Line(LanguageList(r.languages), 10, Normal, Left, Grey)] else acc
  }

  function ReferenceSection(acc: seq<Block>, r: Resume): seq<Block> {
    if |r.references| > 0 then ReferenceCalls(acc + [Heading(ReferencesTitle)], r.references) else acc
  }

  /** The calls made before the technical-skills section: the header, summary,
      competencies, experience and education sections. */
  function AtsPdfBeforeSkills(f: DateFormat, r: Resume): seq<Block> {
    EducationSection(ExperienceSection(CompetenciesSection(SummarySection(HeaderSection([], r), r), r), f, r), f, r)
  }

  /** Every call `exportToATSPDF` makes for a resume, in order. */
  function AtsPdfProgram(f: DateFormat, r: Resume): seq<Block> {
    var a0 := HeaderSection([], r);
    var a1 := CompetenciesSection(SummarySection(a0, r), r);
    var a2 := EducationSection(ExperienceSection(a1, f, r), f, r);
    var a3 := SoftSection(TechnicalSection(a2, r), r);
    ReferenceSection(LanguageSection(CertificationSection(a3, f, r), r), r)
  }

  // ---- the section headings of the program ----

  /** The titles of the `addSection` calls among `calls`, in order. */
  function HeadingTitles(calls: seq<Block>): seq<string>
    decreases |calls|
  {
    if calls == [] then []
    else
      var last := calls[|calls| - 1];
      HeadingTitles(calls[..|calls| - 1]) + (if last.Heading? then [last.title] else [])
  }

  /** A line or a gap leaves the heading sequence alone. */
  lemma Plain(s: seq<Block>, b: Block)
    requires !b.Heading?
    ensures HeadingTitles(s + [b]) == HeadingTitles(s)
  {
    assert (s + [b])[..|s|] == s;
  }

  lemma Plain2(s: seq<Block>, b: Block, c: Block)
    requires !b.Heading? && !c.Heading?
    ensures HeadingTitles(s + [b] + [c]) == HeadingTitles(s)
  {
    Plain(s, b);
    Plain(s + [b], c);
  }

  lemma HeadingAppends(s: seq<Block>, title: string)
    ensures HeadingTitles(s + [Heading(title)]) == HeadingTitles(s) + [title]
  {
    assert (s + [Heading(title)])[..|s|] == s;
  }

  lemma {:induction false} HeaderNoHeadings(acc: seq<Block>, p: PersonalInfo)
    ensures HeadingTitles(HeaderCalls(acc, p)) == HeadingTitles(acc)
  {
    Plain2(acc, Line(Or(p.fullName, "Your Name"), 20, Bold, Center, Accent), Gap(5));
    var a0 := acc + [Line(Or(p.fullName, "Your Name"), 20, Bold, Center, Accent)] + [Gap(5)];
    var a1 := a0;
    if Truthy(p.title) {
      Plain2(a0, Line(p.title.s, 12, Normal, Center, Grey), Gap(5));
      a1 := a0 + [Line(p.title.s, 12, Normal, Center, Grey)] + [Gap(5)];
    }
    var a2 := a1;
    if Truthy(p.location) {
      Plain2(a1, Line(p.location.s, 10, Normal, Center, Grey), Gap(5));
      a2 := a1 + [Line(p.location.s, 10, Normal, Center, Grey)] + [Gap(5)];
    }
    var contact := PdfContactParts(p);
    var a3 := a2;
    if |contact| > 0 {
      Plain2(a2, Line(Join(contact, " | "), 10, Normal, Center, Grey), Gap(5));
      a3 := a2 + [Line(Join(contact, " | "), 10, Normal, Center, Grey)] + [Gap(5)];
    }
    var links := LinkParts(p);
    if |links| > 0 {
      Plain(a3, Line(Join(links, " | "), 9, Normal, Center, Accent));
    }
  }

  lemma {:induction false} AchievementsNoHeadings(acc: seq<Block>, items: seq<string>)
    ensures HeadingTitles(AchievementCalls(acc, items)) == HeadingTitles(acc)
    decreases |items|
  {
    if items != [] {
      AchievementsNoHeadings(acc, items[..|items| - 1]);
      Plain2(AchievementCalls(acc, items[..|items| - 1]), Line(Bullet + items[|items| - 1], 10, Normal, Left, Grey), Gap(3));
    }
  }

  lemma {:induction false} ExperienceEntryNoHeadings(acc: seq<Block>, f: DateFormat, e: Experience, index: nat)
    ensures HeadingTitles(ExperienceEntry(acc, f, e, index)) == HeadingTitles(acc)
  {
    var a0 := acc;
    if index > 0 {
      Plain(acc, Gap(12));
      a0 := acc + [Gap(12)];
    }
    Plain2(a0, Line(Text(e.position), 11, Bold, Left, Dark), Gap(3));
    var a1 := a0 + [Line(Text(e.position), 11, Bold, Left, Dark)] + [Gap(3)];
    var company := CompanyLine(e);
    var a2 := a1;
    if company != "" {
      Plain2(a1, Line(company, 10, Normal, Left, Grey), Gap(3));
      a2 := a1 + [Line(company, 10, Normal, Left, Grey)] + [Gap(3)];
    }
    Plain2(a2, Line(ExperienceDates(f, e), 9, Italic, Left, Light), Gap(5));
    var a3 := a2 + [Line(ExperienceDates(f, e), 9, Italic, Left, Light)] + [Gap(5)];
    var a4 := a3;
    if Truthy(e.description) {
      Plain2(a3, Line(Bullet + e.description.s, 10, Normal, Left, Grey), Gap(3));
      a4 := a3 + [Line(Bullet + e.description.s, 10, Normal, Left, Grey)] + [Gap(3)];
    }
    if e.achievements.AchList? {
      AchievementsNoHeadings(a4, e.achievements.items);
    }
  }

  /** Entries add no headings: only `addSection` does. */
  lemma {:induction false} ExperienceNoHeadings(acc: seq<Block>, f: DateFormat, xs: seq<Experience>)
    ensures HeadingTitles(ExperienceCalls(acc, f, xs)) == HeadingTitles(acc)
    decreases |xs|
  {
    if xs != [] {
      ExperienceNoHeadings(acc, f, xs[..|xs| - 1]);
      ExperienceEntryNoHeadings(ExperienceCalls(acc, f, xs[..|xs| - 1]), f, xs[|xs| - 1], |xs| - 1);
    }
  }

  lemma {:induction false} ProjectEntryNoHeadings(acc: seq<Block>, f: DateFormat, p: Project, gap: bool)
    ensures HeadingTitles(ProjectEntry(acc, f, p, gap)) == HeadingTitles(acc)
  {
    var a0 := acc;
    if gap {
      Plain(acc, Gap(12));
      a0 := acc + [Gap(12)];
    }
    Plain2(a0, Line(Text(p.name), 11, Bold, Left, Dark), Gap(3));
    var a1 := a0 + [Line(Text(p.name), 11, Bold, Left, Dark)] + [Gap(3)];
    var dates := ProjectDates(f, p);
    var a2 := a1;
    if dates.Some? {
      Plain2(a1, Line(dates.value, 9, Italic, Left, Light), Gap(5));
      a2 := a1 + [Line(dates.value, 9, Italic, Left, Light)] + [Gap(5)];
    }
    var a3 := a2;
    if Truthy(p.description) {
      Plain2(a2, Line(Bullet + p.description.s, 10, Normal, Left, Grey), Gap(3));
      a3 := a2 + [Line(Bullet + p.description.s, 10, Normal, Left, Grey)] + [Gap(3)];
    }
    if TechTruthy(p.technologies) {
      Plain2(a3, Line(Bullet + "Technologies: " + TechnologiesText(p.technologies), 10, Normal, Left, Grey), Gap(3));
    }
  }

  lemma {:induction false} ProjectsNoHeadings(acc: seq<Block>, f: DateFormat, xs: seq<Project>, afterExperience: bool)
    ensures HeadingTitles(ProjectCalls(acc, f, xs, afterExperience)) == HeadingTitles(acc)
    decreases |xs|
  {
    if xs != [] {
      ProjectsNoHeadings(acc, f, xs[..|xs| - 1], afterExperience);
      ProjectEntryNoHeadings(ProjectCalls(acc, f, xs[..|xs| - 1], afterExperience), f, xs[|xs| - 1], |xs| - 1 > 0 || afterExperience);
    }
  }

  lemma {:induction false} EducationEntryNoHeadings(acc: seq<Block>, f: DateFormat, e: Education, index: nat)
    ensures HeadingTitles(EducationEntry(acc, f, e, index)) == HeadingTitles(acc)
  {
    var a0 := acc;
    if index > 0 {
      Plain(acc, Gap(10));
      a0 := acc + [Gap(10)];
    }
    Plain2(a0, Line(DegreeText(e), 11, Bold, Left, Dark), Gap(3));
    var a1 := a0 + [Line(DegreeText(e), 11, Bold, Left, Dark)] + [Gap(3)];
    var institution := InstitutionLine(e);
    var a2 := a1;
    if institution != "" {
      Plain2(a1, Line(institution, 10, Normal, Left, Grey), Gap(3));
      a2 := a1 + [Line(institution, 10, Normal, Left, Grey)] + [Gap(3)];
    }
    Plain(a2, Line(EducationDates(f, e), 9, Normal, Left, Light));
    var a3 := a2 + [Line(EducationDates(f, e), 9, Normal, Left, Light)];
    if Truthy(e.gpa) {
      Plain2(a3, Gap(3), Line("GPA: " + e.gpa.s, 9, Normal, Left, Grey));
    }
  }

  lemma {:induction false} EducationNoHeadings(acc: seq<Block>, f: DateFormat, xs: seq<Education>)
    ensures HeadingTitles(EducationCalls(acc, f, xs)) == HeadingTitles(acc)
    decreases |xs|
  {
    if xs != [] {
      EducationNoHeadings(acc, f, xs[..|xs| - 1]);
      EducationEntryNoHeadings(EducationCalls(acc, f, xs[..|xs| - 1]), f, xs[|xs| - 1], |xs| - 1);
    }
  }

  lemma {:induction false} GroupsNoHeadings(acc: seq<Block>, gs: seq<CategoryGroup>)
    ensures HeadingTitles(GroupCalls(acc, gs)) == HeadingTitles(acc)
    decreases |gs|
  {
    if gs != [] {
      GroupsNoHeadings(acc, gs[..|gs| - 1]);
      Plain2(GroupCalls(acc, gs[..|gs| - 1]), Line(GroupLine(gs[|gs| - 1]), 10, Normal, Left, Grey), Gap(5));
    }
  }

  lemma {:induction false} CertificationEntryNoHeadings(acc: seq<Block>, f: DateFormat, c: Certification, index: nat)
    ensures HeadingTitles(CertificationEntry(acc, f, c, index)) == HeadingTitles(acc)
  {
    var a0 := acc;
    if index > 0 {
      Plain(acc, Gap(8));
      a0 := acc + [Gap(8)];
    }
    Plain(a0, Line(CertHeader(f, c), 10, Bold, Left, Ink));
    var a1 := a0 + [Line(CertHeader(f, c), 10, Bold, Left, Ink)];
    if Truthy(c.description) {
      Plain2(a1, Gap(3), Line(c.description.s, 9, Normal, Left, Grey));
    }
  }

  lemma {:induction false} CertificationsNoHeadings(acc: seq<Block>, f: DateFormat, xs: seq<Certification>)
    ensures HeadingTitles(CertificationCalls(acc, f, xs)) == HeadingTitles(acc)
    decreases |xs|
  {
    if xs != [] {
      CertificationsNoHeadings(acc, f, xs[..|xs| - 1]);
      CertificationEntryNoHeadings(CertificationCalls(acc, f, xs[..|xs| - 1]), f, xs[|xs| - 1], |xs| - 1);
    }
  }

  lemma {:induction false} ReferenceEntryNoHeadings(acc: seq<Block>, r: Reference, index: nat)
    ensures HeadingTitles(ReferenceEntry(acc, r, index)) == HeadingTitles(acc)
  {
    var a0 := acc;
    if index > 0 {
      Plain(acc, Gap(10));
      a0 := acc + [Gap(10)];
    }
    Plain2(a0, Line(Text(r.name), 10, Bold, Left, Ink), Gap(3));
    var a1 := a0 + [Line(Text(r.name), 10, Bold, Left, Ink)] + [Gap(3)];
    var a2 := a1;
    if Truthy(r.position) {
      Plain(a1, Line(r.position.s, 9, Normal, Left, Grey));
      a2 := a1 + [Line(r.position.s, 9, Normal, Left, Grey)];
    }
    var a3 := a2;
    if Truthy(r.company) {
      Plain2(a2, Gap(2), Line(r.company.s, 9, Normal, Left, Grey));
      a3 := a2 + [Gap(2)] + [Line(r.company.s, 9, Normal, Left, Grey)];
    }
    var a4 := a3;
    if Truthy(r.phone) {
      Plain2(a3, Gap(2), Line("Tel: " + r.phone.s, 9, Normal, Left, Grey));
      a4 := a3 + [Gap(2)] + [Line("Tel: " + r.phone.s, 9, Normal, Left, Grey)];
    }
    if Truthy(r.email) {
      Plain2(a4, Gap(2), Line("Email: " + r.email.s, 9, Normal, Left, Grey));
    }
  }

  lemma {:induction false} ReferencesNoHeadings(acc: seq<Block>, xs: seq<Reference>)
    ensures HeadingTitles(ReferenceCalls(acc, xs)) == HeadingTitles(acc)
    decreases |xs|
  {
    if xs != [] {
      ReferencesNoHeadings(acc, xs[..|xs| - 1]);
      ReferenceEntryNoHeadings(ReferenceCalls(acc, xs[..|xs| - 1]), xs[|xs| - 1], |xs| - 1);
    }
  }

  // What each section adds to the heading sequence: the heading of its candidate.

  lemma SummaryHeadings(acc: seq<Block>, r: Resume)
    ensures HeadingTitles(SummarySection(acc, r)) == HeadingTitles(acc) + Emitted(Candidate(Truthy(r.summary), SummaryTitle))
  {
    if Truthy(r.summary) {
      HeadingAppends(acc, SummaryTitle);
      Plain(acc + [Heading(SummaryTitle)], Line(r.summary.s, 10, Normal, Left, Ink));
    }
  }

  lemma CompetenciesHeadings(acc: seq<Block>, r: Resume)
    ensures HeadingTitles(CompetenciesSection(acc, r)) == HeadingTitles(acc) + Emitted(Candidate(|r.skills| > 0, CompetenciesTitle))
  {
    if |r.skills| > 0 {
      HeadingAppends(acc, CompetenciesTitle);
      Plain(acc + [Heading(CompetenciesTitle)], Line(Competencies(r.skills), 10, Normal, Left, Ink));
    }
  }

  lemma ExperienceHeadings(acc: seq<Block>, f: DateFormat, r: Resume)
    ensures HeadingTitles(ExperienceSection(acc, f, r)) ==
      HeadingTitles(acc) + Emitted(Candidate(|r.experience| > 0 || |r.projects| > 0, ExperienceTitle(r.experienceType)))
  {
    if |r.experience| > 0 || |r.projects| > 0 {
      var h := acc + [Heading(ExperienceTitle(r.experienceType))];
      HeadingAppends(acc, ExperienceTitle(r.experienceType));
      ExperienceNoHeadings(h, f, r.experience);
      ProjectsNoHeadings(ExperienceCalls(h, f, r.experience), f, r.projects, |r.experience| > 0);
    }
  }

  lemma EducationHeadings(acc: seq<Block>, f: DateFormat, r: Resume)
    ensures HeadingTitles(EducationSection(acc, f, r)) == HeadingTitles(acc) + Emitted(Candidate(|r.education| > 0, EducationTitle))
  {
    if |r.education| > 0 {
      HeadingAppends(acc, EducationTitle);
      EducationNoHeadings(acc + [Heading(EducationTitle)], f, r.education);
    }
  }

  lemma TechnicalHeadings(acc: seq<Block>, r: Resume)
    ensures HeadingTitles(TechnicalSection(acc, r)) ==
      HeadingTitles(acc) + Emitted(Candidate(|TechnicalSkills(r.skills)| > 0, TechnicalSkillsTitle))
  {
    if |TechnicalSkills(r.skills)| > 0 {
      HeadingAppends(acc, TechnicalSkillsTitle);
      GroupsNoHeadings(acc + [Heading(TechnicalSkillsTitle)], Group(TechnicalSkills(r.skills)));
    }
  }

  lemma SoftHeadings(acc: seq<Block>, r: Resume)
    ensures HeadingTitles(SoftSection(acc, r)) == HeadingTitles(acc) + Emitted(Candidate(|SoftSkills(r.skills)| > 0, SoftSkillsTitle))
  {
    if |SoftSkills(r.skills)| > 0 {
      HeadingAppends(acc, SoftSkillsTitle);
      Plain(acc + [Heading(SoftSkillsTitle)], Line(SoftSkillsLine(r.skills), 10, Normal, Left, Grey));
    }
  }

  lemma CertificationHeadings(acc: seq<Block>, f: DateFormat, r: Resume)
    ensures HeadingTitles(CertificationSection(acc, f, r)) ==
      HeadingTitles(acc) + Emitted(Candidate(|r.certifications| > 0, CertificationsTitle))
  {
    if |r.certifications| > 0 {
      HeadingAppends(acc, CertificationsTitle);
      CertificationsNoHeadings(acc + [Heading(CertificationsTitle)], f, r.certifications);
    }
  }

  lemma LanguageHeadings(acc: seq<Block>, r: Resume)
    ensures HeadingTitles(LanguageSection(acc, r)) == HeadingTitles(acc) + Emitted(Candidate(|r.languages| > 0, LanguagesTitle))
  {
    if |r.languages| > 0 {
      HeadingAppends(acc, LanguagesTitle);
      Plain(acc + [Heading(LanguagesTitle)], Line(LanguageList(r.languages), 10, Normal, Left, Grey));
    }
  }

  lemma ReferenceHeadings(acc: seq<Block>, r: Resume)
    ensures HeadingTitles(ReferenceSection(acc, r)) == HeadingTitles(acc) + Emitted(Candidate(|r.references| > 0, ReferencesTitle))
  {
    if |r.references| > 0 {
      HeadingAppends(acc, ReferencesTitle);
      ReferencesNoHeadings(acc + [Heading(ReferencesTitle)], r.references);
    }
  }

  /** The PDF's section headings are exactly the resume's section titles, in the fixed
      order, each present only when its backing list or value is non-empty. */
  lemma AtsPdfHeadings(f: DateFormat, r: Resume)
    ensures HeadingTitles(AtsPdfProgram(f, r)) == SectionTitles(r)
  {
    var h := HeaderSection([], r);
    if r.personalInfo.Some? {
      HeaderNoHeadings([], r.personalInfo.value);
    }
    var a0 := SummarySection(h, r);
    SummaryHeadings(h, r);
    var a1 := CompetenciesSection(a0, r);
    CompetenciesHeadings(a0, r);
    var a2 := ExperienceSection(a1, f, r);
    ExperienceHeadings(a1, f, r);
    var a3 := EducationSection(a2, f, r);
    EducationHeadings(a2, f, r);
    var a4 := TechnicalSection(a3, r);
    TechnicalHeadings(a3, r);
    var a5 := SoftSection(a4, r);
    SoftHeadings(a4, r);
    var a6 := CertificationSection(a5, f, r);
    CertificationHeadings(a5, f, r);
    var a7 := LanguageSection(a6, r);
    LanguageHeadings(a6, r);
    ReferenceHeadings(a7, r);
    CandidatesSnoc(r);
  }

  // ---- the exporter ----

  const PdfExportError: string := "Failed to export ATS-friendly PDF"

  /** `exportToATSPDF(resumeData)`. `saved` is whether jsPDF completes the drawing and
      `pdf.save` succeeds; any failure surfaces as the one fixed error. When the written
      grouping of the technical skills throws, drawing stops right after the TECHNICAL
      SKILLS heading and the export fails. */
  method ExportToAtsPdf(f: DateFormat, wrap: Wrap, r: Resume, saved: bool) returns (doc: PdfDocument, status: Status)
    ensures fresh(doc) && doc.Valid() && doc.wrap == wrap
    ensures GroupAsWritten(TechnicalSkills(r.skills)).Ok? ==>
      doc.log == AtsPdfProgram(f, r) && status == (if saved then Success else Failed(PdfExportError))
    ensures GroupAsWritten(TechnicalSkills(r.skills)).Err? ==>
      doc.log == AtsPdfBeforeSkills(f, r) + [Heading(TechnicalSkillsTitle)] && status == Failed(PdfExportError)
  {
    doc := new PdfDocument(wrap);
    if r.personalInfo.Some? {
      EmitHeader(doc, r.personalInfo.value);
    }
    EmitOpening(doc, r);
    EmitExperienceSection(doc, f, r);
    EmitEducationSection(doc, f, r);
    var thrown := EmitSkills(doc, r);
    if thrown {
      status := Failed(PdfExportError);
      return;
    }
    EmitClosing(doc, f, r);
    status := if saved then Success else Failed(PdfExportError);
  }

  /** The summary and core-competencies sections. */
  method EmitOpening(doc: PdfDocument, r: Resume)
    requires doc.Valid()
    modifies doc
    ensures doc.Valid() && doc.log == CompetenciesSection(SummarySection(old(doc.log), r), r)
  {
    if Truthy(r.summary) {
      doc.AddSection(SummaryTitle);
      doc.AddText(r.summary.s, 10, Normal, Left, Ink);
    }
    if |r.skills| > 0 {
      doc.AddSection(CompetenciesTitle);
      doc.AddText(Competencies(r.skills), 10, Normal, Left, Ink);
    }
  }

  method EmitExperienceSection(doc: PdfDocument, f: DateFormat, r: Resume)
    requires doc.Valid()
    modifies doc
    ensures doc.Valid() && doc.log == ExperienceSection(old(doc.log), f, r)
  {
    if |r.experience| > 0 || |r.projects| > 0 {
      doc.AddSection(ExperienceTitle(r.experienceType));
      EmitExperience(doc, f, r.experience);
      EmitProjects(doc, f, r.projects, |r.experience| > 0);
    }
  }

  method EmitEducationSection(doc: PdfDocument, f: DateFormat, r: Resume)
    requires doc.Valid()
    modifies doc
    ensures doc.Valid() && doc.log == EducationSection(old(doc.log), f, r)
  {
    if |r.education| > 0 {
      doc.AddSection(EducationTitle);
      EmitEducation(doc, f, r.education);
    }
  }

  /** The certification, language and referee sections. */
  method EmitClosing(doc: PdfDocument, f: DateFormat, r: Resume)
    requires doc.Valid()
    modifies doc
    ensures doc.Valid() && doc.log == ReferenceSection(LanguageSection(CertificationSection(old(doc.log), f, r), r), r)
  {
    if |r.certifications| > 0 {
      doc.AddSection(CertificationsTitle);
      EmitCertifications(doc, f, r.certifications);
    }
    if |r.languages| > 0 {
      doc.AddSection(LanguagesTitle);
      doc.AddText(LanguageList(r.languages), 10, Normal, Left, Grey);
    }
    if |r.references| > 0 {
      doc.AddSection(ReferencesTitle);
      EmitReferences(doc, r.references);
    }
  }

  method EmitHeader(doc: PdfDocument, p: PersonalInfo)
    requires doc.Valid()
    modifies doc
    ensures doc.Valid() && doc.log == HeaderCalls(old(doc.log), p)
  {
    doc.AddText(Or(p.fullName, "Your Name"), 20, Bold, Center, Accent);
    doc.AddSpace(5);
    if Truthy(p.title) {
      doc.AddText(p.title.s, 12, Normal, Center, Grey);
      doc.AddSpace(5);
    }
    if Truthy(p.location) {
      doc.AddText(p.location.s, 10, Normal, Center, Grey);
      doc.AddSpace(5);
    }
    var contact := PdfContactParts(p);
    if |contact| > 0 {
      doc.AddText(Join(contact, " | "), 10, Normal, Center, Grey);
      doc.AddSpace(5);
    }
    var links := LinkParts(p);
    if |links| > 0 {
      doc.AddText(Join(links, " | "), 9, Normal, Center, Accent);
    }
  }

  /** The technical-skills section (grouped by category) and the soft-skills line.
      `thrown` is whether the written grouping throws, which happens after the heading. */
  method EmitSkills(doc: PdfDocument, r: Resume) returns (thrown: bool)
    requires doc.Valid()
    modifies doc
    ensures doc.Valid()
    ensures thrown <==> GroupAsWritten(TechnicalSkills(r.skills)).Err?
    ensures thrown ==> doc.log == old(doc.log) + [Heading(TechnicalSkillsTitle)]
    ensures !thrown ==> doc.log == SoftSection(TechnicalSection(old(doc.log), r), r)
  {
    thrown := false;
    var technical := TechnicalSkills(r.skills);
    if |technical| > 0 {
      doc.AddSection(TechnicalSkillsTitle);
      var grouped := GroupAsWritten(technical);
      if grouped.Err? {
        thrown := true;
        return;
      }
      GroupAsWrittenFails(technical);
      EmitGroups(doc, grouped.value);
    }
    var soft := SoftSkills(r.skills);
    if |soft| > 0 {
      doc.AddSection(SoftSkillsTitle);
      doc.AddText(SoftSkillsLine(r.skills), 10, Normal, Left, Grey);
    }
  }

  method EmitExperience(doc: PdfDocument, f: DateFormat, xs: seq<Experience>)
    requires doc.Valid()
    modifies doc
    ensures doc.Valid() && doc.log == ExperienceCalls(old(doc.log), f, xs)
  {
    for i := 0 to |xs|
      invariant doc.Valid() && doc.log == ExperienceCalls(old(doc.log), f, xs[..i])
    {
      EmitExperienceEntry(doc, f, xs[i], i);
      assert xs[..i + 1][..i] == xs[..i];
    }
    assert xs[..|xs|] == xs;
  }

  method EmitExperienceEntry(doc: PdfDocument, f: DateFormat, e: Experience, index: nat)
    requires doc.Valid()
    modifies doc
    ensures doc.Valid() && doc.log == ExperienceEntry(old(doc.log), f, e, index)
  {
    if index > 0 {
      doc.AddSpace(12);
    }
    doc.AddText(Text(e.position), 11, Bold, Left, Dark);
    doc.AddSpace(3);
    var company := CompanyLine(e);
    if company != "" {
      doc.AddText(company, 10, Normal, Left, Grey);
      doc.AddSpace(3);
    }
    doc.AddText(ExperienceDates(f, e), 9, Italic, Left, Light);
    doc.AddSpace(5);
    if Truthy(e.description) {
      doc.AddText(Bullet + e.description.s, 10, Normal, Left, Grey);
      doc.AddSpace(3);
    }
    if e.achievements.AchList? {
      EmitAchievements(doc, e.achievements.items);
    }
  }

  method EmitAchievements(doc: PdfDocument, items: seq<string>)
    requires doc.Valid()
    modifies doc
    ensures doc.Valid() && doc.log == AchievementCalls(old(doc.log), items)
  {
    for i := 0 to |items|
      invariant doc.Valid() && doc.log == AchievementCalls(old(doc.log), items[..i])
    {
      doc.AddText(Bullet + items[i], 10, Normal, Left, Grey);
      doc.AddSpace(3);
      assert items[..i + 1][..i] == items[..i];
    }
    assert items[..|items|] == items;
  }

  method EmitProjects(doc: PdfDocument, f: DateFormat, xs: seq<Project>, afterExperience: bool)
    requires doc.Valid()
    modifies doc
    ensures doc.Valid() && doc.log == ProjectCalls(old(doc.log), f, xs, afterExperience)
  {
    for i := 0 to |xs|
      invariant doc.Valid() && doc.log == ProjectCalls(old(doc.log), f, xs[..i], afterExperience)
    {
      EmitProjectEntry(doc, f, xs[i], i > 0 || afterExperience);
      assert xs[..i + 1][..i] == xs[..i];
    }
    assert xs[..|xs|] == xs;
  }

  method EmitProjectEntry(doc: PdfDocument, f: DateFormat, p: Project, gap: bool)
    requires doc.Valid()
    modifies doc
    ensures doc.Valid() && doc.log == ProjectEntry(old(doc.log), f, p, gap)
  {
    if gap {
      doc.AddSpace(12);
    }
    doc.AddText(Text(p.name), 11, Bold, Left, Dark);
    doc.AddSpace(3);
    var dates := ProjectDates(f, p);
    if dates.Some? {
      doc.AddText(dates.value, 9, Italic, Left, Light);
      doc.AddSpace(5);
    }
    if Truthy(p.description) {
      doc.AddText(Bullet + p.description.s, 10, Normal, Left, Grey);
      doc.AddSpace(3);
    }
    if TechTruthy(p.technologies) {
      doc.AddText(Bullet + "Technologies: " + TechnologiesText(p.technologies), 10, Normal, Left, Grey);
      doc.AddSpace(3);
    }
  }

  method EmitEducation(doc: PdfDocument, f: DateFormat, xs: seq<Education>)
    requires doc.Valid()
    modifies doc
    ensures doc.Valid() && doc.log == EducationCalls(old(doc.log), f, xs)
  {
    for i := 0 to |xs|
      invariant doc.Valid() && doc.log == EducationCalls(old(doc.log), f, xs[..i])
    {
      EmitEducationEntry(doc, f, xs[i], i);
      assert xs[..i + 1][..i] == xs[..i];
    }
    assert xs[..|xs|] == xs;
  }

  method EmitEducationEntry(doc: PdfDocument, f: DateFormat, e: Education, index: nat)
    requires doc.Valid()
    modifies doc
    ensures doc.Valid() && doc.log == EducationEntry(old(doc.log), f, e, index)
  {
    if index > 0 {
      doc.AddSpace(10);
    }
    doc.AddText(DegreeText(e), 11, Bold, Left, Dark);
    doc.AddSpace(3);
    var institution := InstitutionLine(e);
    if institution != "" {
      doc.AddText(institution, 10, Normal, Left, Grey);
      doc.AddSpace(3);
    }
    doc.AddText(EducationDates(f, e), 9, Normal, Left, Light);
    if Truthy(e.gpa) {
      doc.AddSpace(3);
      doc.AddText("GPA: " + e.gpa.s, 9, Normal, Left, Grey);
    }
  }

  method EmitGroups(doc: PdfDocument, gs: seq<CategoryGroup>)
    requires doc.Valid()
    modifies doc
    ensures doc.Valid() && doc.log == GroupCalls(old(doc.log), gs)
  {
    for i := 0 to |gs|
      invariant doc.Valid() && doc.log == GroupCalls(old(doc.log), gs[..i])
    {
      doc.AddText(GroupLine(gs[i]), 10, Normal, Left, Grey);
      doc.AddSpace(5);
      assert gs[..i + 1][..i] == gs[..i];
    }
    assert gs[..|gs|] == gs;
  }

  method EmitCertifications(doc: PdfDocument, f: DateFormat, xs: seq<Certification>)
    requires doc.Valid()
    modifies doc
    ensures doc.Valid() && doc.log == CertificationCalls(old(doc.log), f, xs)
  {
    for i := 0 to |xs|
      invariant doc.Valid() && doc.log == CertificationCalls(old(doc.log), f, xs[..i])
    {
      EmitCertificationEntry(doc, f, xs[i], i);
      assert xs[..i + 1][..i] == xs[..i];
    }
    assert xs[..|xs|] == xs;
  }

  method EmitCertificationEntry(doc: PdfDocument, f: DateFormat, c: Certification, index: nat)
    requires doc.Valid()
    modifies doc
    ensures doc.Valid() && doc.log == CertificationEntry(old(doc.log), f, c, index)
  {
    if index > 0 {
      doc.AddSpace(8);
    }
    doc.AddText(CertHeader(f, c), 10, Bold, Left, Ink);
    if Truthy(c.description) {
      doc.AddSpace(3);
      doc.AddText(c.description.s, 9, Normal, Left, Grey);
    }
  }

  method EmitReferences(doc: PdfDocument, xs: seq<Reference>)
    requires doc.Valid()
    modifies doc
    ensures doc.Valid() && doc.log == ReferenceCalls(old(doc.log), xs)
  {
    for i := 0 to |xs|
      invariant doc.Valid() && doc.log == ReferenceCalls(old(doc.log), xs[..i])
    {
      EmitReferenceEntry(doc, xs[i], i);
      assert xs[..i + 1][..i] == xs[..i];
    }
    assert xs[..|xs|] == xs;
  }

  method EmitReferenceEntry(doc: PdfDocument, r: Reference, index: nat)
    requires doc.Valid()
    modifies doc
    ensures doc.Valid() && doc.log == ReferenceEntry(old(doc.log), r, index)
  {
    if index > 0 {
      doc.AddSpace(10);
    }
    doc.AddText(Text(r.name), 10, Bold, Left, Ink);
    doc.AddSpace(3);
    if Truthy(r.position) {
      doc.AddText(r.position.s, 9, Normal, Left, Grey);
    }
    if Truthy(r.company) {
      doc.AddSpace(2);
      doc.AddText(r.company.s, 9, Normal, Left, Grey);
    }
    if Truthy(r.phone) {
      doc.AddSpace(2);
      doc.AddText("Tel: " + r.phone.s, 9, Normal, Left, Grey);
    }
    if Truthy(r.email) {
      doc.AddSpace(2);
      doc.AddText("Email: " + r.email.s, 9, Normal, Left, Grey);
    }
  }
}
