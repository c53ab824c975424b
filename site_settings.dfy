/** The `SiteSettings` record of types/site-settings.ts and its default value. */
module SiteSettings {

  datatype Theme = Light | Dark

  datatype SectionTitles = SectionTitles(
    about: string, experience: string, education: string, skills: string, projects: string)

  datatype Settings = Settings(
    fontFamily: string, theme: Theme, primaryColor: string,
    backgroundColor: string, textColor: string, sectionTitles: SectionTitles)

  /** The monospace font stack, as the settings default and the generated page's body rule both write it. */
  const MonospaceStack := "ui-monospace, SFMono-Regular, \"SF Mono\", Consolas, \"Liberation Mono\", Menlo, monospace"

  /** `defaultSiteSettings`. */
  const Default := Settings(
    MonospaceStack, Light, "#2563eb", "#ffffff", "#374151",
    SectionTitles("About", "Work Experience", "Education", "Skills", "Projects"))
}
