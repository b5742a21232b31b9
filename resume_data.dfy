/**
 * The resume aggregate and the colour selection, as the editors build them and the templates read them.
 * Dates are the "YYYY-MM" strings of a month input, or empty.
 */
module ResumeData {
  import opened Common

  datatype PersonalInfo = PersonalInfo(
    fullName: string, email: string, phone: string, location: string,
    website: string, linkedin: string, summary: string,
    profileImage: Option<string>)   // a data URL, or null

  datatype Experience = Experience(
    id: Id, jobTitle: string, company: string, location: string,
    startDate: string, endDate: string, current: bool, description: string)

  datatype Education = Education(
    id: Id, degree: string, school: string, location: string,
    startDate: string, endDate: string, gpa: string, description: string)

  /** `level` is free text: the editor offers four values, but the templates also handle any other. */
  datatype Skill = Skill(id: Id, name: string, level: string)

  /** `technologies` is the comma-separated text as typed; it is split only when rendered. */
  datatype Project = Project(
    id: Id, name: string, description: string, technologies: string,
    url: string, github: string, startDate: string, endDate: string)

  /** The default resume carries an empty certifications list that no editor or template touches. */
  type Certification = string

  datatype Resume = Resume(
    personalInfo: PersonalInfo,
    experience: seq<Experience>,
    education: seq<Education>,
    skills: seq<Skill>,
    projects: seq<Project>,
    certifications: seq<Certification>)

  /** The colour selection. A preset chosen in the picker also carries its display name. */
  datatype Palette = Palette(name: Option<string>, primary: string, secondary: string, accent: string)

  function ExperienceId(e: Experience): Id { e.id }
  function EducationId(e: Education): Id { e.id }
  function SkillId(s: Skill): Id { s.id }
  function ProjectId(p: Project): Id { p.id }
}
