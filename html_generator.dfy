/**
  `generateWebsiteHTML` of lib/html-generator.ts: one template literal that
  renders a `ProfileData` as a standalone page. The text of its style sheet
  is the parameter `styles` (the model does not look into it). Field values
  are inserted verbatim: nothing is escaped.

  The literal is cut into named chunks at its `${...}` holes, so that the
  document is the concatenation, in source order, of chunks and the values
  the holes compute.
*/
module HtmlGenerator {
  import opened Wrappers
  import opened Text
  import opened Profile

  // ---------------------------------------------------------------------------
  // The fixed text of the template, hole by hole.

  const Doctype := "<!DOCTYPE html>"
  const DocumentOpen := Doctype + "\n<html lang=\"en\">\n<head>\n    <meta charset=\"UTF-8\">\n    <meta name=\"viewport\" content=\"width=device-width, initial-scale=1.0\">\n    <title>"
  const StyleOpen := "\n    <style>\n"
  const StyleClose := "    </style>\n</head>\n<body>\n    <div class=\"container\">\n        <!-- Header -->\n        <header class=\"header\">\n            <div class=\"header-content\">\n                <h1 class=\"header-title\">"
  const NavOpen := "</h1>\n                <div class=\"header-buttons\">\n                    <button class=\"btn btn-minimal\" onclick=\"window.history.back()\">Back to Upload</button>\n                    <button class=\"btn btn-silver\" onclick=\"downloadHTML()\">Download HTML</button>\n                </div>\n            </div>\n        </header>\n\n        <!-- Main Content -->\n        <main class=\"main-content\">\n            <!-- Top Navigation -->\n            <div class=\"top-nav\">\n                <div class=\"nav-links\">\n                    "
  const NavBetween := "\n                    "
  const ProfileOpen := "\n                </div>\n            </div>\n\n            <!-- Profile Header -->\n            <div class=\"profile-header\">\n                <h1 class=\"profile-name\">"
  const NameToSummary := "</h1>\n                <p class=\"profile-summary\">"
  const SummaryToLocation := "</p>\n                "
  const ProfileToAbout := "\n            </div>\n\n            <!-- About Section -->\n            "
  const AboutOpen := "<section class=\"section\">\n                <h2 class=\"section-title\">About</h2>\n                <div class=\"section-content\">\n                    <p>"
  const AboutClose := "</p>\n                </div>\n            </section>"
  const ExperienceSlot := "\n\n            <!-- Work Experience Section -->\n            "
  const EducationSlot := "\n\n            <!-- Education Section -->\n            "
  const ProjectsSlot := "\n\n            <!-- Projects Section -->\n            "
  const SkillsSlot := "\n\n            <!-- Skills Section -->\n            "
  const ScriptOpen := "\n\n        </main>\n    </div>\n\n    <script>\n        function downloadHTML() {\n            const htmlContent = document.documentElement.outerHTML;\n            const blob = new Blob([htmlContent], { type: \'text/html\' });\n            const url = URL.createObjectURL(blob);\n            const a = document.createElement(\'a\');\n            a.href = url;\n            a.download = \'"
  const ScriptClose := "\';\n            document.body.appendChild(a);\n            a.click();\n            document.body.removeChild(a);\n            URL.revokeObjectURL(url);\n        }\n    </script>\n</body>\n</html>"

  const SectionClose := "\n                </div>\n            </section>\n            "

  /** The fallback sentence of the About paragraph. */
  const AboutFallback := "Professional with experience in technology and innovation. Passionate about creating impactful solutions and driving results."

  // ---------------------------------------------------------------------------
  // Top navigation

  /** The CONTACT link: present exactly when the e-mail address is not empty. */
  function ContactLink(email: string): (r: string)
    ensures email == "" <==> r == ""
    ensures email != "" ==> Contains(r, "mailto:" + email)
  {
    if email == "" then ""
    else
      var target := "mailto:" + email;
      ContainsMiddle("<a href=\"", target, "\" class=\"nav-link\">CONTACT</a>");
      "<a href=\"" + target + "\" class=\"nav-link\">CONTACT</a>"
  }

  predicate HasScheme(url: string) {
    StartsWith(url, "http://") || StartsWith(url, "https://")
  }

  /** A social URL that is not empty and lacks an http(s) scheme gets `https://` in front; any other is kept. */
  function FixUrl(url: string): (r: string)
    ensures r == url || r == "https://" + url
    ensures url == "" || HasScheme(url) ==> r == url
    ensures r == "" <==> url == ""
    ensures r == "" || HasScheme(r)
  {
    if url != "" && !HasScheme(url) then
      StartsWithAppend("https://", url, "https://");
      "https://" + url
    else url
  }

  lemma FixUrlIdempotent(url: string)
    ensures FixUrl(FixUrl(url)) == FixUrl(url)
  {
  }

  /** One social link: the fixed URL as target, the platform in upper case as label. */
  function SocialLinkHtml(s: SocialLink): (r: string)
    ensures StartsWith(r, "<a href=\"" + FixUrl(s.url) + "\"")
    ensures EndsWith(r, ">" + ToUpper(s.platform) + "</a>")
  {
    var open := "<a href=\"" + FixUrl(s.url) + "\"";
    var attributes := " target=\"_blank\" rel=\"noopener noreferrer\" class=\"nav-link\"";
    var close := ">" + ToUpper(s.platform) + "</a>";
    var r := open + attributes + close;
    assert r[..|open|] == open;
    assert r[|r| - |close|..] == close;
    r
  }

  // ---------------------------------------------------------------------------
  // Profile header and About

  /** The location line: present exactly when the location is not empty. */
  function LocationLine(location: string): (r: string)
    ensures location == "" <==> r == ""
    ensures location != "" ==> Contains(r, location)
  {
    if location == "" then ""
    else
      ContainsMiddle("<p class=\"profile-location\">\U{F8FF}\U{00FC}\U{00EC}\U{00E7} ", location, "</p>");
      "<p class=\"profile-location\">\U{F8FF}\U{00FC}\U{00EC}\U{00E7} " + location + "</p>"
  }

  /** `data.summary || fallback`. */
  function AboutText(summary: string): (r: string)
    ensures summary != "" ==> r == summary
    ensures summary == "" ==> r == AboutFallback
  {
    if summary != "" then summary else AboutFallback
  }

  // ---------------------------------------------------------------------------
  // Sections

  datatype Section = About | WorkExperience | EducationSection | ProjectsSection | SkillsSection

  /** Where a section stands in the page. */
  function Rank(s: Section): nat {
    match s
    case About => 0
    case WorkExperience => 1
    case EducationSection => 2
    case ProjectsSection => 3
    case SkillsSection => 4
  }

  /** The hard-coded heading of each section. */
  function Heading(s: Section): string {
    match s
    case About => "About"
    case WorkExperience => "Work Experience"
    case EducationSection => "Education"
    case ProjectsSection => "Projects"
    case SkillsSection => "Skills"
  }

  /** The sections the page shows, in page order: About always, each list section only when its list is not empty. */
  function Sections(d: ProfileData): (r: seq<Section>)
    ensures |r| >= 1 && r[0] == About
    ensures WorkExperience in r <==> |d.experience| > 0
    ensures EducationSection in r <==> |d.education| > 0
    ensures ProjectsSection in r <==> |d.projects| > 0
    ensures SkillsSection in r <==> |d.skills| > 0
    ensures forall i :: 0 <= i < |r| - 1 ==> Rank(r[i]) < Rank(r[i + 1])
  {
    [About]
    + (if |d.experience| > 0 then [WorkExperience] else [])
    + (if |d.education| > 0 then [EducationSection] else [])
    + (if |d.projects| > 0 then [ProjectsSection] else [])
    + (if |d.skills| > 0 then [SkillsSection] else [])
  }

  /** The opening of a list section, with its heading. */
  function SectionOpen(s: Section): string {
    var container := if s == SkillsSection then "skills-container" else "section-content";
    "\n            <section class=\"section\">\n                <h2 class=\"section-title\">" + Heading(s)
    + "</h2>\n                <div class=\"" + container + "\">\n                    "
  }

  function ExperienceHtml(e: Experience): string {
    "\n                    <div class=\"experience-item\">\n                        <div class=\"experience-header\">\n                            <div style=\"flex: 1;\">\n                                <h3 class=\"experience-title\">" + e.position + "</h3>\n                                <div class=\"experience-company\">\n                                    <span>" + e.company + "</span>\n                                    <span>\U{201A}\U{00C4}\U{00A2}</span>\n                                    <span>Full-Time</span>\n                                </div>\n                            </div>\n                            <div class=\"experience-period\">\n                                " + e.startDate + " - " + e.endDate + "\n                            </div>\n                        </div>\n                        "
    + (if e.description != "" then "<p class=\"experience-description\">" + e.description + "</p>" else "")
    + "\n                    </div>\n                    "
  }

  function EducationHtml(e: Education): string {
    "\n                    <div class=\"education-item\">\n                        <div class=\"education-content\">\n                            <h3>" + e.institution + "</h3>\n                            <p>" + e.degree + (if e.field != "" then " in " + e.field else "")
    + "</p>\n                        </div>\n                        <span class=\"education-period\">" + e.startDate + (if e.endDate != "" then " - " + e.endDate else "")
    + "</span>\n                    </div>\n                    "
  }

  function TechnologyHtml(t: string): string {
    "<span class=\"project-tech-tag\">" + t + "</span>"
  }

  function ProjectHtml(p: Project): string {
    "\n                    <div class=\"project-item\">\n                        <h3 class=\"project-title\">" + p.name + "</h3>\n                        <p class=\"project-description\">" + p.description + "</p>\n                        "
    + (if |p.technologies| > 0 then "\n                        <div class=\"project-technologies\">\n                            " + ConcatMap(p.technologies, TechnologyHtml) + "\n                        </div>\n                        " else "")
    + "\n                        <div class=\"project-links\">\n                            "
    + (if Filled(p.githubUrl) then "<a href=\"" + p.githubUrl.value + "\" target=\"_blank\" class=\"project-link\">GitHub</a>" else "")
    + "\n                            "
    + (if Filled(p.url) then "<a href=\"" + p.url.value + "\" target=\"_blank\" class=\"project-link\">Website</a>" else "")
    + "\n                        </div>\n                    </div>\n                    "
  }

  function SkillHtml(s: string): string {
    "<span class=\"skill-tag\">" + s + "</span>"
  }

  /** `skills.slice(0, 10)`. */
  function FirstTenSkills(skills: seq<string>): (r: seq<string>)
    ensures |r| <= 10 && |r| <= |skills| && r == skills[..|r|]
    ensures |skills| <= 10 ==> r == skills
    ensures |skills| > 0 <==> |r| > 0
  {
    if |skills| <= 10 then skills else skills[..10]
  }

  /**
    The fixed text of the page around its holes, and the renderers of one
    list item. `Standard` is the template `generateWebsiteHTML` writes out;
    the page properties below hold for every template, so their proofs never
    look into its long literals.
  */
  datatype Template = Template(
    documentOpen: string, styleClose: string, navOpen: string, profileOpen: string,
    aboutOpen: string, aboutClose: string, scriptOpen: string, scriptClose: string,
    experienceItem: Experience -> string, educationItem: Education -> string,
    projectItem: Project -> string, skillItem: string -> string)

  const Standard := Template(
    DocumentOpen, StyleClose, NavOpen, ProfileOpen, AboutOpen, AboutClose, ScriptOpen, ScriptClose,
    ExperienceHtml, EducationHtml, ProjectHtml, SkillHtml)

  function AboutBlock(t: Template, d: ProfileData): string {
    t.aboutOpen + AboutText(d.summary) + t.aboutClose
  }

  /** A list section's block: its opening, one item block per element in list order, its closing. */
  function ExperienceBlock(t: Template, d: ProfileData): string {
    SectionOpen(WorkExperience) + ConcatMap(d.experience, t.experienceItem) + SectionClose
  }

  function EducationBlock(t: Template, d: ProfileData): string {
    SectionOpen(EducationSection) + ConcatMap(d.education, t.educationItem) + SectionClose
  }

  function ProjectsBlock(t: Template, d: ProfileData): string {
    SectionOpen(ProjectsSection) + ConcatMap(d.projects, t.projectItem) + SectionClose
  }

  function SkillsBlock(t: Template, d: ProfileData): string {
    SectionOpen(SkillsSection) + ConcatMap(FirstTenSkills(d.skills), t.skillItem) + SectionClose
  }

  function SectionHtml(t: Template, d: ProfileData, s: Section): string {
    match s
    case About => AboutBlock(t, d)
    case WorkExperience => ExperienceBlock(t, d)
    case EducationSection => EducationBlock(t, d)
    case ProjectsSection => ProjectsBlock(t, d)
    case SkillsSection => SkillsBlock(t, d)
  }

  /** What a section contributes to the page: its block when shown, nothing otherwise. */
  function Shown(t: Template, d: ProfileData, s: Section): (r: string)
    ensures s in Sections(d) ==> r == SectionHtml(t, d, s)
    ensures s !in Sections(d) ==> r == ""
  {
    if s in Sections(d) then SectionHtml(t, d, s) else ""
  }

  // ---------------------------------------------------------------------------
  // The document

  /** `name.replace(/[^a-zA-Z0-9]/g, '_')`. */
  function Sanitize(name: string): (r: string)
    ensures |r| == |name|
    ensures forall i :: 0 <= i < |name| && IsAsciiAlnum(name[i]) ==> r[i] == name[i]
    ensures forall i :: 0 <= i < |name| && !IsAsciiAlnum(name[i]) ==> r[i] == '_'
  {
    seq(|name|, i requires 0 <= i < |name| => if IsAsciiAlnum(name[i]) then name[i] else '_')
  }

  /** The download file name. */
  function DownloadName(name: string): (r: string)
    ensures |r| == |name| + 15
    ensures EndsWith(r, "_portfolio.html")
    ensures forall i :: 0 <= i < |name| ==> IsAsciiAlnum(r[i]) || r[i] == '_'
  {
    Sanitize(name) + "_portfolio.html"
  }

  const TitleEnd := " - Personal Website</title>"

  /** The opening of the page up to the end of its title. */
  function TitleLine(t: Template, name: string): string {
    t.documentOpen + name + TitleEnd
  }

  /** Everything up to the top navigation: the head with the style sheet, and the page header. */
  function Head(t: Template, name: string, styles: string): (r: string)
    ensures StartsWith(r, TitleLine(t, name))
  {
    var rest := StyleOpen + styles + t.styleClose + name + t.navOpen;
    StartsWithAppend(TitleLine(t, name), rest, TitleLine(t, name));
    TitleLine(t, name) + rest
  }

  /** The top navigation: the CONTACT link, then one link per social entry in order. */
  function Navigation(d: ProfileData): string {
    ContactLink(d.email) + NavBetween + ConcatMap(d.socialLinks, SocialLinkHtml)
  }

  function ProfileHeader(t: Template, d: ProfileData): string {
    t.profileOpen + d.name + NameToSummary + d.summary + SummaryToLocation + LocationLine(d.location)
  }

  /** The five section slots in page order, each holding its section when shown. */
  function Body(t: Template, d: ProfileData): string {
    ProfileToAbout + Shown(t, d, About)
    + ExperienceSlot + Shown(t, d, WorkExperience)
    + EducationSlot + Shown(t, d, EducationSection)
    + ProjectsSlot + Shown(t, d, ProjectsSection)
    + SkillsSlot + Shown(t, d, SkillsSection)
  }

  function Script(t: Template, name: string): string {
    t.scriptOpen + DownloadName(name) + t.scriptClose
  }

  /** The page a template gives for a profile and a style sheet. */
  function Render(t: Template, d: ProfileData, styles: string): (r: string)
    ensures StartsWith(r, TitleLine(t, d.name))
  {
    StartsWithChain(Head(t, d.name, styles), Navigation(d), ProfileHeader(t, d), Body(t, d), Script(t, d.name), TitleLine(t, d.name));
    Head(t, d.name, styles) + Navigation(d) + ProfileHeader(t, d) + Body(t, d) + Script(t, d.name)
  }

  /** `generateWebsiteHTML(data)`. */
  function GenerateWebsiteHtml(d: ProfileData, styles: string): string {
    Render(Standard, d, styles)
  }

  // ---------------------------------------------------------------------------
  // Properties of the page

  /** The page starts with the doctype when the template's opening does. */
  lemma DocumentStartsWithDoctype(t: Template, d: ProfileData, styles: string)
    ensures StartsWith(t.documentOpen, Doctype) ==> StartsWith(Render(t, d, styles), Doctype)
  {
    if StartsWith(t.documentOpen, Doctype) {
      StartsWithAppend(t.documentOpen, d.name, Doctype);
      StartsWithAppend(t.documentOpen + d.name, TitleEnd, Doctype);
      StartsWithTransitive(Render(t, d, styles), TitleLine(t, d.name), Doctype);
    }
  }

  /** The standard page opens with the doctype. */
  lemma DoctypeFirst()
    ensures StartsWith(DocumentOpen, Doctype)
  {
    StartsWithAppend(Doctype, DocumentOpen[|Doctype|..], Doctype);
    assert DocumentOpen == Doctype + DocumentOpen[|Doctype|..];
  }

  /** The page depends on the profile only through its header fields and what each section shows. */
  lemma RenderCongruent(t: Template, d: ProfileData, e: ProfileData, styles: string)
    requires d.name == e.name && d.email == e.email && d.socialLinks == e.socialLinks
    requires d.summary == e.summary && d.location == e.location
    requires forall s :: Shown(t, d, s) == Shown(t, e, s)
    ensures Render(t, d, styles) == Render(t, e, styles)
  {
    assert Body(t, d) == Body(t, e);
  }

  /** A section shows the same text for two profiles that agree on its list and on which sections are shown. */
  lemma ShownCongruent(t: Template, d: ProfileData, e: ProfileData, s: Section)
    requires d.summary == e.summary && d.experience == e.experience && d.education == e.education
    requires d.projects == e.projects && FirstTenSkills(d.skills) == FirstTenSkills(e.skills)
    requires Sections(d) == Sections(e)
    ensures Shown(t, d, s) == Shown(t, e, s)
  {
    match s
    case About =>
    case WorkExperience =>
    case EducationSection =>
    case ProjectsSection =>
    case SkillsSection => assert SkillsBlock(t, d) == SkillsBlock(t, e);
  }

  /** Only the first ten skills reach the page: cutting the list to them beforehand changes nothing. */
  lemma OnlyTenSkillsRendered(t: Template, d: ProfileData, styles: string)
    ensures Render(t, d, styles) == Render(t, d.(skills := FirstTenSkills(d.skills)), styles)
  {
    var e := d.(skills := FirstTenSkills(d.skills));
    assert FirstTenSkills(e.skills) == FirstTenSkills(d.skills);
    assert Sections(e) == Sections(d);
    forall s ensures Shown(t, d, s) == Shown(t, e, s) {
      ShownCongruent(t, d, e, s);
    }
    RenderCongruent(t, d, e, styles);
  }

  /** One more experience entry adds exactly its block at the end of the Work Experience section. */
  lemma ExperienceAppended(t: Template, d: ProfileData, e: Experience)
    ensures ExperienceBlock(t, d.(experience := d.experience + [e]))
            == SectionOpen(WorkExperience) + ConcatMap(d.experience, t.experienceItem) + t.experienceItem(e) + SectionClose
  {
    WrappedAppend(SectionOpen(WorkExperience), d.experience, e, t.experienceItem, SectionClose);
  }

  lemma SanitizeIdempotent(name: string)
    ensures Sanitize(Sanitize(name)) == Sanitize(name)
  {
  }
}
