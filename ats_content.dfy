/** The text the two ATS exporters agree on: date formatters, section titles and the
    composite lines both builders assemble from a resume's fields. */
module AtsContent {
  import opened Js
  import opened Strings
  import opened ResumeModel
  import opened SkillGroups

  /** Locale-dependent date rendering, supplied by the runtime:
      `monthYear(d)` is `new Date(d).toLocaleDateString('en-US', { month: 'short', year: 'numeric' })`
      and `year(d)` is `new Date(d).getFullYear().toString()`. */
  datatype DateFormat = DateFormat(monthYear: string -> string, year: string -> string)

  /** `formatDate`: '' for a falsy date, else the month and year. */
  function FormatDate(f: DateFormat, d: Val): (r: string)
    ensures !Truthy(d) ==> r == ""
  {
    if !Truthy(d) then "" else f.monthYear(d.s)
  }

  /** `formatYear`: '' for a falsy date, else the full year. */
  function FormatYear(f: DateFormat, d: Val): (r: string)
    ensures !Truthy(d) ==> r == ""
  {
    if !Truthy(d) then "" else f.year(d.s)
  }

  /** `formatMonthYear`, whose code is the same as `formatDate`'s. */
  function FormatMonthYear(f: DateFormat, d: Val): (r: string)
    ensures !Truthy(d) ==> r == ""
    ensures r == FormatDate(f, d)
  {
    if !Truthy(d) then "" else f.monthYear(d.s)
  }

  const SummaryTitle: string := "PROFESSIONAL SUMMARY"
  const CompetenciesTitle: string := "CORE COMPETENCIES"
  const WorkExperienceTitle: string := "WORK EXPERIENCE"
  const ProjectExperienceTitle: string := "PROJECT EXPERIENCE"
  const EducationTitle: string := "EDUCATION"
  const TechnicalSkillsTitle: string := "TECHNICAL SKILLS"
  const SoftSkillsTitle: string := "SOFT SKILLS"
  const CertificationsTitle: string := "ACHIEVEMENTS & CERTIFICATIONS"
  const LanguagesTitle: string := "LANGUAGES"
  const ReferencesTitle: string := "REFEREES"

  const Bullet: string := "\U{2022} "
  const Dot: string := " \U{2022} "

  /** The experience heading: PROJECT EXPERIENCE exactly when `experience_type === 'project'`. */
  function ExperienceTitle(experienceType: Val): (r: string)
    ensures r == ProjectExperienceTitle <==> experienceType == Str("project")
    ensures r == WorkExperienceTitle <==> experienceType != Str("project")
  {
    if experienceType == Str("project") then ProjectExperienceTitle else WorkExperienceTitle
  }

  /** A section heading together with whether its backing value is non-empty. */
  datatype Candidate = Candidate(present: bool, title: string)

  /** The section order both ATS builders follow, each heading with its presence test. */
  function Candidates(r: Resume): (cs: seq<Candidate>)
    ensures |cs| == 9
  {
    [ Candidate(Truthy(r.summary), SummaryTitle),
      Candidate(|r.skills| > 0, CompetenciesTitle),
      Candidate(|r.experience| > 0 || |r.projects| > 0, ExperienceTitle(r.experienceType)),
      Candidate(|r.education| > 0, EducationTitle),
      Candidate(|TechnicalSkills(r.skills)| > 0, TechnicalSkillsTitle),
      Candidate(|SoftSkills(r.skills)| > 0, SoftSkillsTitle),
      Candidate(|r.certifications| > 0, CertificationsTitle),
      Candidate(|r.languages| > 0, LanguagesTitle),
      Candidate(|r.references| > 0, ReferencesTitle) ]
  }

  /** The same candidates appended one at a time. */
  lemma CandidatesAppended(r: Resume)
    ensures Candidates(r) ==
      [] + [Candidate(Truthy(r.summary), SummaryTitle)]
         + [Candidate(|r.skills| > 0, CompetenciesTitle)]
         + [Candidate(|r.experience| > 0 || |r.projects| > 0, ExperienceTitle(r.experienceType))]
         + [Candidate(|r.education| > 0, EducationTitle)]
         + [Candidate(|TechnicalSkills(r.skills)| > 0, TechnicalSkillsTitle)]
         + [Candidate(|SoftSkills(r.skills)| > 0, SoftSkillsTitle)]
         + [Candidate(|r.certifications| > 0, CertificationsTitle)]
         + [Candidate(|r.languages| > 0, LanguagesTitle)]
         + [Candidate(|r.references| > 0, ReferencesTitle)]
  {
  }

  /** The heading a candidate contributes: its title when present, nothing otherwise. */
  function Emitted(c: Candidate): (r: seq<string>)
    ensures |r| <= 1
    ensures r == [c.title] <==> c.present
  {
    if c.present then [c.title] else []
  }

  /** The titles of the present candidates, in order. */
  function Selected(cs: seq<Candidate>): seq<string>
    decreases |cs|
  {
    if cs == [] then [] else Selected(cs[..|cs| - 1]) + Emitted(cs[|cs| - 1])
  }

  lemma SelectedSnoc(cs: seq<Candidate>, c: Candidate)
    ensures Selected(cs + [c]) == Selected(cs) + Emitted(c)
  {
    assert (cs + [c])[..|cs|] == cs;
  }

  /** The headings of a resume, in the order both ATS builders emit them. */
  function SectionTitles(r: Resume): seq<string> {
    Selected(Candidates(r))
  }

  /** `SectionTitles` built one candidate at a time, as the builders emit the sections. */
  lemma CandidatesSnoc(r: Resume)
    ensures SectionTitles(r) ==
      [] + Emitted(Candidate(Truthy(r.summary), SummaryTitle))
         + Emitted(Candidate(|r.skills| > 0, CompetenciesTitle))
         + Emitted(Candidate(|r.experience| > 0 || |r.projects| > 0, ExperienceTitle(r.experienceType)))
         + Emitted(Candidate(|r.education| > 0, EducationTitle))
         + Emitted(Candidate(|TechnicalSkills(r.skills)| > 0, TechnicalSkillsTitle))
         + Emitted(Candidate(|SoftSkills(r.skills)| > 0, SoftSkillsTitle))
         + Emitted(Candidate(|r.certifications| > 0, CertificationsTitle))
         + Emitted(Candidate(|r.languages| > 0, LanguagesTitle))
         + Emitted(Candidate(|r.references| > 0, ReferencesTitle))
  {
    var c := [] + [Candidate(Truthy(r.summary), SummaryTitle)];
    SelectedSnoc([], Candidate(Truthy(r.summary), SummaryTitle));
    SelectedSnoc(c, Candidate(|r.skills| > 0, CompetenciesTitle));
    c := c + [Candidate(|r.skills| > 0, CompetenciesTitle)];
    SelectedSnoc(c, Candidate(|r.experience| > 0 || |r.projects| > 0, ExperienceTitle(r.experienceType)));
    c := c + [Candidate(|r.experience| > 0 || |r.projects| > 0, ExperienceTitle(r.experienceType))];
    SelectedSnoc(c, Candidate(|r.education| > 0, EducationTitle));
    c := c + [Candidate(|r.education| > 0, EducationTitle)];
    SelectedSnoc(c, Candidate(|TechnicalSkills(r.skills)| > 0, TechnicalSkillsTitle));
    c := c + [Candidate(|TechnicalSkills(r.skills)| > 0, TechnicalSkillsTitle)];
    SelectedSnoc(c, Candidate(|SoftSkills(r.skills)| > 0, SoftSkillsTitle));
    c := c + [Candidate(|SoftSkills(r.skills)| > 0, SoftSkillsTitle)];
    SelectedSnoc(c, Candidate(|r.certifications| > 0, CertificationsTitle));
    c := c + [Candidate(|r.certifications| > 0, CertificationsTitle)];
    SelectedSnoc(c, Candidate(|r.languages| > 0, LanguagesTitle));
    c := c + [Candidate(|r.languages| > 0, LanguagesTitle)];
    SelectedSnoc(c, Candidate(|r.references| > 0, ReferencesTitle));
    CandidatesAppended(r);
  }

  /** The position of a heading in the fixed section order. */
  function Rank(title: string): nat {
    if title == SummaryTitle then 0
    else if title == CompetenciesTitle then 1
    else if title == WorkExperienceTitle || title == ProjectExperienceTitle then 2
    else if title == EducationTitle then 3
    else if title == TechnicalSkillsTitle then 4
    else if title == SoftSkillsTitle then 5
    else if title == CertificationsTitle then 6
    else if title == LanguagesTitle then 7
    else if title == ReferencesTitle then 8
    else 9
  }

  predicate RanksIncrease(cs: seq<Candidate>) {
    forall i, j :: 0 <= i < j < |cs| ==> Rank(cs[i].title) < Rank(cs[j].title)
  }

  lemma CandidatesRanked(r: Resume)
    ensures RanksIncrease(Candidates(r))
    ensures forall i :: 0 <= i < |Candidates(r)| ==> Rank(Candidates(r)[i].title) == i
  {
    var cs := Candidates(r);
    assert forall i :: 0 <= i < |cs| ==> Rank(cs[i].title) == i;
  }

  lemma {:induction false} SelectedMembers(cs: seq<Candidate>)
    ensures forall t :: t in Selected(cs) <==> exists i :: 0 <= i < |cs| && cs[i].present && cs[i].title == t
    decreases |cs|
  {
    if cs != [] {
      var init := cs[..|cs| - 1];
      SelectedMembers(init);
      forall t | t in Selected(init) ensures exists i :: 0 <= i < |cs| && cs[i].present && cs[i].title == t {
        var i :| 0 <= i < |init| && init[i].present && init[i].title == t;
        assert cs[i] == init[i];
      }
      forall i | 0 <= i < |cs| - 1 && cs[i].present ensures cs[i].title in Selected(init) {
        assert init[i] == cs[i];
      }
    }
  }

  lemma {:induction false} SelectedOrdered(cs: seq<Candidate>)
    requires RanksIncrease(cs)
    ensures forall i, j :: 0 <= i < j < |Selected(cs)| ==> Rank(Selected(cs)[i]) < Rank(Selected(cs)[j])
    decreases |cs|
  {
    if cs != [] {
      var init := cs[..|cs| - 1];
      var last := cs[|cs| - 1];
      var prefix := Selected(init);
      assert RanksIncrease(init) by {
        forall i, j | 0 <= i < j < |init| ensures Rank(init[i].title) < Rank(init[j].title) {
          assert init[i] == cs[i] && init[j] == cs[j];
        }
      }
      SelectedOrdered(init);
      SelectedMembers(init);
      if last.present {
        forall i | 0 <= i < |prefix| ensures Rank(prefix[i]) < Rank(last.title) {
          assert prefix[i] in prefix;
          var k :| 0 <= k < |init| && init[k].present && init[k].title == prefix[i];
          assert init[k] == cs[k];
        }
      }
    }
  }

  /** Headings come in the fixed order, each at most once. */
  lemma SectionTitlesOrdered(r: Resume)
    ensures forall i, j :: 0 <= i < j < |SectionTitles(r)| ==> Rank(SectionTitles(r)[i]) < Rank(SectionTitles(r)[j])
  {
    CandidatesRanked(r);
    SelectedOrdered(Candidates(r));
  }

  /** Each heading is present exactly when its backing value is non-empty. */
  lemma SectionTitlesPresence(r: Resume)
    ensures SummaryTitle in SectionTitles(r) <==> Truthy(r.summary)
    ensures CompetenciesTitle in SectionTitles(r) <==> |r.skills| > 0
    ensures ExperienceTitle(r.experienceType) in SectionTitles(r) <==> |r.experience| > 0 || |r.projects| > 0
    ensures EducationTitle in SectionTitles(r) <==> |r.education| > 0
    ensures TechnicalSkillsTitle in SectionTitles(r) <==> |TechnicalSkills(r.skills)| > 0
    ensures SoftSkillsTitle in SectionTitles(r) <==> |SoftSkills(r.skills)| > 0
    ensures CertificationsTitle in SectionTitles(r) <==> |r.certifications| > 0
    ensures LanguagesTitle in SectionTitles(r) <==> |r.languages| > 0
    ensures ReferencesTitle in SectionTitles(r) <==> |r.references| > 0
  {
    var cs := Candidates(r);
    CandidatePresence(r);
    assert cs[0].title == SummaryTitle && cs[1].title == CompetenciesTitle;
    assert cs[2].title == ExperienceTitle(r.experienceType) && cs[3].title == EducationTitle;
    assert cs[4].title == TechnicalSkillsTitle && cs[5].title == SoftSkillsTitle;
    assert cs[6].title == CertificationsTitle && cs[7].title == LanguagesTitle;
    assert cs[8].title == ReferencesTitle;
  }

  /** A candidate's heading is selected exactly when the candidate is present: headings
      differ in rank, so no other candidate can contribute the same heading. */
  lemma CandidatePresence(r: Resume)
    ensures forall k :: 0 <= k < |Candidates(r)| ==>
      (Candidates(r)[k].title in SectionTitles(r) <==> Candidates(r)[k].present)
  {
    var cs := Candidates(r);
    CandidatesRanked(r);
    SelectedMembers(cs);
    forall k | 0 <= k < |cs| ensures cs[k].title in Selected(cs) <==> cs[k].present {
      if cs[k].title in Selected(cs) {
        var i :| 0 <= i < |cs| && cs[i].present && cs[i].title == cs[k].title;
        assert Rank(cs[i].title) == i && Rank(cs[k].title) == k;
      }
    }
  }

  // ---- composite lines: `[...].filter(Boolean).join(sep)` ----

  /** `[exp.company, exp.location].filter(Boolean).join(', ')`. */
  function CompanyLine(e: Experience): (r: string)
    ensures r == (if !Truthy(e.company) then Text(e.location)
                  else if !Truthy(e.location) then e.company.s
                  else e.company.s + ", " + e.location.s)
  {
    JoinPresent2(Text(e.company), Text(e.location), ", ");
    JoinPresent([Text(e.company), Text(e.location)], ", ")
  }

  /** `[edu.degree, edu.field_of_study && `in ${...}`].filter(Boolean).join(' ')`. */
  function DegreeText(e: Education): (r: string)
    ensures r == (if !Truthy(e.fieldOfStudy) then Text(e.degree)
                  else if !Truthy(e.degree) then "in " + e.fieldOfStudy.s
                  else e.degree.s + " in " + e.fieldOfStudy.s)
  {
    var field := if Truthy(e.fieldOfStudy) then "in " + e.fieldOfStudy.s else "";
    JoinPresent2(Text(e.degree), field, " ");
    JoinPresent([Text(e.degree), field], " ")
  }

  /** `[edu.institution, edu.location].filter(Boolean).join(' - ')`. */
  function InstitutionLine(e: Education): (r: string)
    ensures r == (if !Truthy(e.institution) then Text(e.location)
                  else if !Truthy(e.location) then e.institution.s
                  else e.institution.s + " - " + e.location.s)
  {
    JoinPresent2(Text(e.institution), Text(e.location), " - ");
    JoinPresent([Text(e.institution), Text(e.location)], " - ")
  }

  /** `[cert.name, cert.issue_date && formatMonthYear(...), cert.issuing_organization]
      .filter(Boolean).join(' | ')`. */
  function CertHeader(f: DateFormat, c: Certification): (r: string)
    ensures r == JoinPresent([Text(c.name), JoinPresent([FormatMonthYear(f, c.issueDate), Text(c.issuingOrganization)], " | ")], " | ")
    ensures r == "" <==> !Truthy(c.name) && FormatMonthYear(f, c.issueDate) == "" && !Truthy(c.issuingOrganization)
  {
    var parts := [Text(c.name), FormatMonthYear(f, c.issueDate), Text(c.issuingOrganization)];
    JoinPresent3(parts[0], parts[1], parts[2], " | ");
    JoinPresentEmpty(parts, " | ");
    assert forall i :: 0 <= i < 3 ==> parts[i] == [Text(c.name), FormatMonthYear(f, c.issueDate), Text(c.issuingOrganization)][i];
    JoinPresent(parts, " | ")
  }

  /** The contact parts of the ATS PDF header: phone, then email, each only if present. */
  function PdfContactParts(p: PersonalInfo): seq<string> {
    NonEmpty([Text(p.phone), Text(p.email)])
  }

  /** The contact parts of the ATS DOCX header: phone, email and location. */
  function DocxContactParts(p: PersonalInfo): seq<string> {
    NonEmpty([Text(p.phone), Text(p.email), Text(p.location)])
  }

  /** The link parts of both headers: LinkedIn, website and GitHub, each only if present. */
  function LinkParts(p: PersonalInfo): (r: seq<string>)
    ensures |r| == 0 <==> !Truthy(p.linkedin) && !Truthy(p.website) && !Truthy(p.github)
  {
    (if Truthy(p.linkedin) then ["LinkedIn: " + p.linkedin.s] else []) +
    (if Truthy(p.website) then ["Website: " + p.website.s] else []) +
    (if Truthy(p.github) then ["GitHub: " + p.github.s] else [])
  }

  /** `${formatDate(start)} - ${current ? 'Present' : formatDate(end)}`. */
  function ExperienceDates(f: DateFormat, e: Experience): string {
    FormatDate(f, e.startDate) + " - " + (if e.current then "Present" else FormatDate(f, e.endDate))
  }

  /** A project's date line: only with a start date; a missing end reads 'Present'. */
  function ProjectDates(f: DateFormat, p: Project): (r: Option<string>)
    ensures r.Some? <==> Truthy(p.startDate)
    ensures r.Some? && !Truthy(p.endDate) ==> r.value == FormatDate(f, p.startDate) + " - Present"
  {
    if !Truthy(p.startDate) then None
    else Some(FormatDate(f, p.startDate) + " - " + (if Truthy(p.endDate) then FormatDate(f, p.endDate) else "Present"))
  }

  /** Education dates use years only and read the graduation date, not the end date. */
  function EducationDates(f: DateFormat, e: Education): string {
    FormatYear(f, e.startDate) + " - " + (if e.current then "Present" else FormatYear(f, e.graduationDate))
  }

  /** `names.join(sep)`: `join` renders `undefined` and `null` elements as ''. */
  function JoinNames(names: seq<Val>, sep: string): string {
    Join(seq(|names|, i requires 0 <= i < |names| => Text(names[i])), sep)
  }

  function SkillNames(skills: seq<Skill>): seq<Val> {
    seq(|skills|, i requires 0 <= i < |skills| => skills[i].name)
  }

  function Min(a: int, b: int): int {
    if a < b then a else b
  }

  const CompetencyLimit: nat := 12

  /** `skills.slice(0, 12).map(s => s.name).join(' • ')`, soft skills included. */
  function Competencies(skills: seq<Skill>): string {
    JoinNames(SkillNames(skills[..Min(CompetencyLimit, |skills|)]), Dot)
  }

  /** Skills beyond the twelfth never reach the competencies line. */
  lemma CompetenciesIgnoreTail(skills: seq<Skill>, more: seq<Skill>)
    requires |skills| >= CompetencyLimit
    ensures Competencies(skills + more) == Competencies(skills)
  {
    assert (skills + more)[..CompetencyLimit] == skills[..CompetencyLimit];
  }

  /** With at most twelve skills every name is listed, in order. */
  lemma CompetenciesListAll(skills: seq<Skill>)
    requires |skills| <= CompetencyLimit
    ensures Competencies(skills) == JoinNames(SkillNames(skills), Dot)
  {
    assert skills[..|skills|] == skills;
  }

  /** `softSkills.map(s => s.name).join(' • ')`. */
  function SoftSkillsLine(skills: seq<Skill>): string {
    JoinNames(SkillNames(SoftSkills(skills)), Dot)
  }

  /** `${category}: ${skillNames.join(', ')}`. */
  function GroupLine(g: CategoryGroup): string {
    g.category + ": " + JoinNames(g.names, ", ")
  }

  /** `${lang.name} (${lang.proficiency})`: a missing field is interpolated as "undefined". */
  function LanguageEntry(l: Language): string {
    Show(l.name) + " (" + Show(l.proficiency) + ")"
  }

  function LanguageList(langs: seq<Language>): string {
    Join(seq(|langs|, i requires 0 <= i < |langs| => LanguageEntry(langs[i])), Dot)
  }

  /** A row written by the languages editor stores `language`, not `name`, so the ATS
      exporters print "undefined" in place of the language. */
  lemma EditorLanguageRendersUndefined(id: Val, language: string)
    ensures LanguageEntry(Language(id, Undefined, Str(language), Str("Intermediate"))) == "undefined (Intermediate)"
  {
  }

  /** `${project.technologies}`: an array is joined with ',' and no space. */
  function TechnologiesText(t: Technologies): string {
    match t
    case TechAbsent => "undefined"
    case TechText(s) => s
    case TechList(xs) => Join(xs, ",")
  }

  /** How an export ends: it resolves, or it rejects with one fixed message. */
  datatype Status = Success | Failed(error: string)

  /** `formats[format] || format` for the ATS formats. A name inherited from
      Object.prototype finds that member instead. */
  datatype Label = Label(text: string) | Inherited(member: string)

  function AtsFormatLabel(format: string): (r: Label)
    ensures r == Label(format) <==> format !in {"ats-pdf", "ats-docx", "pdf"} && format !in PrototypeMembers
    ensures r.Inherited? <==> format in PrototypeMembers
  {
    if format == "ats-pdf" then Label("ATS-Friendly PDF (Recommended)")
    else if format == "ats-docx" then Label("ATS-Friendly DOCX")
    else if format == "pdf" then Label("Visual PDF")
    else if format in PrototypeMembers then Inherited(format)
    else Label(format)
  }
}
