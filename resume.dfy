/** The resume snapshot the exporters receive: personal information, summary, the
    experience type and one list per section, each row as the database stores it. */
module ResumeModel {
  import opened Js

  /** `achievements` of an experience row: absent, a plain string, or a list. */
  datatype Achievements = AchAbsent | AchText(text: string) | AchList(items: seq<string>)

  /** `technologies` of a project row: absent, a string typed by hand, or a list. */
  datatype Technologies = TechAbsent | TechText(text: string) | TechList(items: seq<string>)

  /** JavaScript truthiness of `technologies`: any array is truthy, even an empty one. */
  predicate TechTruthy(t: Technologies) {
    t.TechList? || (t.TechText? && t.text != "")
  }

  datatype PersonalInfo = PersonalInfo(
    fullName: Val, title: Val, email: Val, phone: Val, location: Val,
    website: Val, linkedin: Val, github: Val)

  datatype Experience = Experience(
    id: Val, company: Val, position: Val, location: Val, startDate: Val, endDate: Val,
    current: bool, description: Val, achievements: Achievements)

  datatype Education = Education(
    id: Val, institution: Val, degree: Val, fieldOfStudy: Val, location: Val,
    startDate: Val, endDate: Val, graduationDate: Val, current: bool, gpa: Val, description: Val)

  datatype Skill = Skill(id: Val, name: Val, category: Val, level: Val, sortOrder: int)

  datatype Project = Project(
    id: Val, name: Val, description: Val, url: Val, githubUrl: Val,
    technologies: Technologies, startDate: Val, endDate: Val, sortOrder: int)

  /** A certification row; `issuer` is the field only the older Word exporter reads. */
  datatype Certification = Certification(
    id: Val, name: Val, issuingOrganization: Val, issuer: Val, issueDate: Val,
    description: Val, credentialUrl: Val)

  /** A language row; the languages editor writes `language`, the ATS exporters read `name`. */
  datatype Language = Language(id: Val, name: Val, language: Val, proficiency: Val)

  datatype Reference = Reference(id: Val, name: Val, position: Val, company: Val, phone: Val, email: Val)

  datatype Resume = Resume(
    title: Val,
    summary: Val,
    experienceType: Val,
    personalInfo: Option<PersonalInfo>,
    experience: seq<Experience>,
    education: seq<Education>,
    skills: seq<Skill>,
    projects: seq<Project>,
    certifications: seq<Certification>,
    languages: seq<Language>,
    references: seq<Reference>)
}
