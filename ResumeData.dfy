/** The structured resume that the parser produces and the matcher reads,
    the job posting the matcher scores it against, and the named entities
    that a language model finds in a text (supplied by the caller). A field
    the source sets to `None` is an `Option`. */
module ResumeData {

  import opened Wrappers

  datatype PersonalInfo = PersonalInfo(
    name: Option<string>,
    email: Option<string>,
    phone: Option<string>,
    location: Option<string>,
    linkedin: Option<string>,
    github: Option<string>)

  /** One non-empty category of detected skills, in table order. */
  datatype SkillCategory = SkillCategory(category: string, skills: seq<string>)

  datatype SkillSet = SkillSet(categorized: seq<SkillCategory>, allSkills: seq<string>, count: nat)

  datatype Experience = Experience(
    position: Option<string>,
    company: Option<string>,
    duration: Option<string>,
    startDate: Option<string>,
    endDate: Option<string>,
    description: Option<string>,
    responsibilities: seq<string>)

  /** An education entry; the institution, which the source looks up with a
      language model, is not part of this model. */
  datatype Education = Education(degree: Option<string>, year: Option<string>, gpa: Option<string>)

  datatype Resume = Resume(
    personal: PersonalInfo,
    skills: SkillSet,
    experience: seq<Experience>,
    education: seq<Education>,
    summary: Option<string>)

  datatype JobPosting = JobPosting(
    id: Option<string>,
    title: Option<string>,
    company: Option<string>,
    description: string,
    requirements: string,
    requiredSkills: seq<string>,
    preferredSkills: seq<string>,
    requiredYears: real,
    requiredEducation: string,
    keywords: seq<string>)

  /** A named entity: its kind (`PERSON`, `GPE`, `ORG`, ...) and its text. */
  datatype Entity = Entity(kind: string, text: string)

  /** Python's truth value of an optional string: present and non-empty. */
  predicate Truthy(s: Option<string>) {
    s.Some? && s.value != []
  }
}
