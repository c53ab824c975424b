/**
  The records of types/profile.ts. Optional members (`phone?`, `url?`, ...)
  are `Option`s; every other member is required.
*/
module Profile {
  import opened Wrappers

  datatype Language = Language(name: string, proficiency: string)

  datatype Certification = Certification(name: string, issuer: string, date: string, url: Option<string>)

  datatype Experience = Experience(
    company: string, position: string, startDate: string, endDate: string,
    description: string, companyUrl: Option<string>)

  datatype Education = Education(
    institution: string, degree: string, field: string, startDate: string,
    endDate: string, institutionUrl: Option<string>)

  datatype Project = Project(
    name: string, description: string, technologies: seq<string>,
    url: Option<string>, githubUrl: Option<string>)

  datatype SocialLink = SocialLink(platform: string, url: string, username: string)

  datatype ProfileData = ProfileData(
    name: string, title: string, email: string, phone: Option<string>,
    location: string, summary: string,
    experience: seq<Experience>, education: seq<Education>, skills: seq<string>,
    projects: seq<Project>, socialLinks: seq<SocialLink>,
    languages: Option<seq<Language>>, certifications: Option<seq<Certification>>,
    achievements: Option<seq<string>>)

  /** An optional string that is truthy: present and not empty. */
  predicate Filled(o: Option<string>) {
    o.Some? && o.value != ""
  }
}
