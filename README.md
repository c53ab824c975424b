# SiteMaker core in Dafny

SiteMaker turns a résumé into a personal website. The resume can be pasted text, an uploaded file or a LinkedIn URL. Two pieces of logic carry the work:

- A language model's JSON answer is normalised into a `ProfileData` record.
- That record is rendered as one standalone HTML page.

This project models that core and the small rules around it:

- the fence-stripping JSON extractor and the profile normaliser, in its three variants (text, file, LinkedIn);
- the HTML page generator: section selection and order, the CONTACT link, `https://` prefixing of social URLs, the ten-skill cap and the download file name;
- the SEO helpers: page metadata, the Person and breadcrumb schemas, meta-description shortening, slugs and keyword extraction;
- the preview editor's coercion helpers (`safeString`, `safeArray`), its record updates and its date-range edit;
- the modern portfolio's rendering rules;
- the `EditableField` and `SiteSettingsPanel` components, as classes whose fields are their props and state;
- the upload route's dispatch and status rules;
- the variant class table;
- the LinkedIn URL rules.

Untrusted JSON is the value type `Js.JsValue`:

- Objects are member sequences in insertion order.
- Property access on `null`/`undefined` throws (`Js.Get`).
- `||`, truthiness, spreads, `String(x)` and `Object.entries` order follow JavaScript.
- `JSON.parse`, `JSON.stringify`, number formatting and base64 decoding are function parameters.

Modules, one per file:
- `Wrappers`: Option and Result.
- `Text`: JavaScript string operations.
- `Js`: JSON values and member access.
- `Sorting`: the stable sort of `Array.prototype.sort`.
- `Profile` and `SiteSettings`: the records of types/.
- `AiParser`, `HtmlGenerator`, `SeoMeta`, `Slug` and `Keywords`: lib/.
- `Coercion`, `Preview`, `Portfolio`, `EditableFieldModel` and `SettingsPanel`: components/.
- `Route`: the API route.
- `VariantClass`.
- `LinkedIn`.

## Model

| member | source | states |
|---|---|---|
| AiParser.ExtractJson | lib/ai-parser.ts:10-38 | The raw text is parsed first. If that fails, the fence-stripped and trimmed text is parsed. If that fails, the span from the first `{` to the last `}` is parsed. It fails with "Unable to extract JSON from AI response" exactly when all three attempts fail. |
| AiParser.RemoveFences | lib/ai-parser.ts:19 | The result is never longer than the input. A text without a backtick is unchanged. |
| AiParser.Stripped | lib/ai-parser.ts:19 | The second candidate holds no "```" and has no whitespace at either end. |
| AiParser.RemoveFencesLeavesNoFence | lib/ai-parser.ts:19 | After every "```json" and "```" has been removed, no "```" is left. |
| AiParser.BraceSpan | lib/ai-parser.ts:28 | A match exists exactly when some `{` comes before some `}`. The match is the text from the first `{` to the last `}`, inclusive. |
| AiParser.ParseAnswer | lib/ai-parser.ts:145-150 | An empty answer fails with "Empty response from AI". An answer from which no JSON can be extracted fails with the extractor's error. Otherwise the result is the normalisation of the extracted value. |
| AiParser.NormalizeFails | lib/ai-parser.ts:152-173 | Normalisation throws exactly when the parsed value is nullish, or when a `skills` or `projects` array has a nullish element. A skills element beyond the cap does not count. |
| AiParser.Normalize | lib/ai-parser.ts:152-173 | A nullish value throws a TypeError when its `name` is read. On success, at most `cap` skills are kept, and there is one project per input project (none for a non-array). The remaining member-by-member contract is in `NormalizeFails`, `NormalizeScalars`, `NormalizeLists`, `NormalizeSkills` and `NormalizeProjects`. |
| AiParser.NormalizeScalars | lib/ai-parser.ts:153-158 | Each of name, title, email, phone, location and summary is the parsed member when truthy, else the variant's fallback. A truthy non-string member passes through unchanged. |
| AiParser.GenericScalarDefaults | lib/ai-parser.ts:153-158 | In the text and file variants, the name is never falsy, because it falls back to "Unknown". Title, email, phone, location and summary become "" when falsy. |
| AiParser.LinkedInEmptyObject | lib/ai-parser.ts:426-447 | The LinkedIn parser turns an empty object into its placeholder profile: "Professional Name", "Software Developer", "contact@example.com", an empty phone, "San Francisco, CA" and the default summary. Experience, education, skills, projects and social links are all `[]`. |
| AiParser.NormalizeLists | lib/ai-parser.ts:159-160 | `experience`, `education` and `socialLinks` pass through unchanged when they are arrays, and are `[]` otherwise. |
| AiParser.NormalizeSkills | lib/ai-parser.ts:161-165 | A non-array gives `[]`. Otherwise the kept elements are coerced one by one, in order. A string stays. Any other element is not nullish and becomes `.name`, else `.skill`, else `String(skill)`. |
| AiParser.CoerceSkill | lib/ai-parser.ts:162-164 | A string is kept. The call fails, with a TypeError reading `name`, exactly when the element is nullish. |
| AiParser.CoerceSkills | lib/ai-parser.ts:161-165 | Fails exactly when some element is nullish. Otherwise keeps the length and coerces each element in place. |
| AiParser.Capped | lib/ai-parser.ts:309 | Without a cap the list is unchanged. With a cap it is the prefix of length `min(cap, length)`. |
| AiParser.FileVariantCapsSkills | lib/ai-parser.ts:308-312 | The file variant yields at most 10 skills. |
| AiParser.CoerceProject | lib/ai-parser.ts:167-170 | Fails exactly on a nullish project. |
| AiParser.CoerceProjects | lib/ai-parser.ts:166-171 | Fails exactly when some element is nullish. Otherwise keeps the length and coerces each element in place. |
| AiParser.CoerceProjectCopies | lib/ai-parser.ts:167-170 | Every member other than `technologies` is copied. `technologies` is kept when it is an array and becomes `[]` otherwise. |
| AiParser.NormalizeProjects | lib/ai-parser.ts:166-171 | Projects keep their length and order. Each one is an object whose `technologies` is an array, with every other member copied from the input. |
| AiParser.CoerceProjectIdempotent | lib/ai-parser.ts:167-170 | Coercing an already coerced project changes nothing. |
| AiParser.CoerceProjectsIdempotent | lib/ai-parser.ts:166-171 | Coercing an already coerced project list changes nothing. |
| AiParser.CoerceSkillsOfStrings | lib/ai-parser.ts:162-163 | A list of strings is its own coercion. |
| AiParser.LookupObjectKeys | lib/ai-parser.ts:152-173 | The object built from a normalised record has exactly the eleven keys, each holding its field. |
| AiParser.NormalizeOfObject | lib/ai-parser.ts:152-173 | Normalising the object of a normalised record gives the record back, whenever its skills and projects are fixed points. |
| AiParser.NormalizeIdempotent | lib/ai-parser.ts:152-173 | Normalisation is idempotent on outputs whose skills are strings. |
| AiParser.SkillObjectNotFixedPoint | lib/ai-parser.ts:162-164 | A skill object whose `name` is an object is coerced to that object, which is not a string, so skills need not reach a fixed point. |
| AiParser.AdaExample | lib/ai-parser.ts:152-173 | `{name: "Ada Lovelace", skills: "Math"}` normalises to that name. Title, email, phone, location and summary are `""`. All five lists are `[]`. |
| AiParser.SkillsExample | lib/ai-parser.ts:161-165 | `[{name: "Go"}, "Rust", {skill: "C++"}]` coerces to `["Go", "Rust", "C++"]`. |
| HtmlGenerator.DocumentStartsWithDoctype | lib/html-generator.ts:4 | For every template, the page starts with `<!DOCTYPE html>` whenever the template's opening does. |
| HtmlGenerator.DoctypeFirst | lib/html-generator.ts:4 | The opening of the standard template starts with `<!DOCTYPE html>`, so the generated page does too. |
| HtmlGenerator.Render | lib/html-generator.ts:3-473 | For every template, the page starts with the title line: the template's opening, the name, then ` - Personal Website</title>`. `generateWebsiteHTML` is `Render` with the standard template. Its other properties are in `DocumentStartsWithDoctype`, `Sections`, `Shown`, `OnlyTenSkillsRendered`, `RenderCongruent` and `ExperienceAppended`. |
| HtmlGenerator.Head | lib/html-generator.ts:4-326 | The head starts with the title line. |
| HtmlGenerator.ContactLink | lib/html-generator.ts:346 | The CONTACT link is empty exactly when the e-mail address is empty. Otherwise it contains `mailto:` + the address. |
| HtmlGenerator.FixUrl | lib/html-generator.ts:348-351 | The result is the URL or `https://` + the URL. Empty URLs and URLs with an `http://`/`https://` scheme are unchanged. The result is empty exactly when the input is, and otherwise has a scheme. |
| HtmlGenerator.FixUrlIdempotent | lib/html-generator.ts:348-351 | Fixing a fixed URL changes nothing. |
| HtmlGenerator.SocialLinkHtml | lib/html-generator.ts:347-354 | The link starts with `<a href="` + the fixed URL and ends with the upper-cased platform and `</a>`. |
| HtmlGenerator.LocationLine | lib/html-generator.ts:362 | The location line is empty exactly when the location is. Otherwise it contains the location. |
| HtmlGenerator.AboutText | lib/html-generator.ts:369 | The About paragraph is the summary, or the fixed fallback sentence when the summary is empty. |
| HtmlGenerator.Sections | lib/html-generator.ts:365-450 | About always comes first. Work Experience, Education, Projects and Skills each appear exactly when their list is non-empty. Sections appear in that fixed order. |
| HtmlGenerator.Shown | lib/html-generator.ts:374-450 | A section's slot holds its block when the section is shown and is empty otherwise. |
| HtmlGenerator.ExperienceAppended | lib/html-generator.ts:378-398 | Appending an experience entry appends one item block, after the blocks of the existing entries. |
| HtmlGenerator.FirstTenSkills | lib/html-generator.ts:447 | The result is a prefix of the skills, of length at most 10, and all of them when there are at most 10. |
| HtmlGenerator.OnlyTenSkillsRendered | lib/html-generator.ts:443-450 | For every template, the page depends only on the first ten skills: cutting the list to them first gives the same page. |
| HtmlGenerator.RenderCongruent | lib/html-generator.ts:3-473 | Two profiles with the same header fields, for which every section shows the same text, get the same page. |
| HtmlGenerator.Sanitize | lib/html-generator.ts:462 | Length is kept. ASCII letters and digits are kept, and every other character becomes `_`. |
| HtmlGenerator.SanitizeIdempotent | lib/html-generator.ts:462 | Sanitising twice is sanitising once. |
| HtmlGenerator.DownloadName | lib/html-generator.ts:462 | The download name is 15 characters longer than the name. It ends in `_portfolio.html` and starts with characters that are alphanumeric or `_`. |
| SeoMeta.Indexable | lib/seo-utils.ts:38-39 | Indexing is allowed unless `noIndex` is true. |
| SeoMeta.GeneratePageMetadata | lib/seo-utils.ts:19-45 | Title, description and URL are copied into the OpenGraph and Twitter blocks. Images are present exactly when `ogImage` is non-empty. OpenGraph then lists one `{url: ogImage}` entry and Twitter lists the bare `ogImage`. `index` equals `follow`, and both are true unless `noIndex` is true. |
| SeoMeta.GeneratePersonSchema | lib/seo-utils.ts:77-125 | The scalar fields are copied. `address` is present exactly when the location is non-empty. `alumniOf` has one entry per education. `worksFor` has at most one entry. |
| SeoMeta.Alumni | lib/seo-utils.ts:114-118 | One organisation per education entry, in the same order. |
| SeoMeta.Employers | lib/seo-utils.ts:119-123 | Only the first work experience becomes an employer, and only if there is one. |
| SeoMeta.Interpolated | lib/seo-utils.ts:117 | A missing value is written as `undefined` in a template. |
| SeoMeta.MissingDegreeText | lib/seo-utils.ts:117 | Without a degree and a field, the description is "undefined in undefined". |
| SeoMeta.BreadcrumbItems | lib/seo-utils.ts:130-141 | Item i has position i + 1 and its name and URL. |
| SeoMeta.BreadcrumbAppend | lib/seo-utils.ts:134-139 | Appending a crumb appends one item, at position length + 1. |
| SeoMeta.OptimizeMetaDescription | lib/seo-utils.ts:164-173 | A description within `maxLength` is returned unchanged. Otherwise the result ends in `...`, and the text before the dots is a prefix of the input. The length is at most `maxLength` when `maxLength >= 3`. Fewer than `maxLength - 3` characters are kept exactly when a space among them lies beyond 0.8·maxLength (`5k > 4·maxLength`). |
| SeoMeta.OptimizeMetaDescriptionDefault | lib/seo-utils.ts:163-173 | With the default `maxLength` of 160, a description of at most 160 characters is unchanged. A longer one is cut to at most 160 characters ending in `...`. |
| Slug.GenerateSlug | lib/seo-utils.ts:178-186 | The slug contains only `a-z`, `0-9`, `_` and `-`. It has no `--`, and no leading or trailing `-`. |
| Slug.SlugIdempotent | lib/seo-utils.ts:178-186 | Slugging a slug changes nothing. |
| Slug.SlugFixed | lib/seo-utils.ts:178-186 | Every string in slug form is its own slug. |
| Slug.RemoveSpecial | lib/seo-utils.ts:181 | Only word characters, whitespace and `-` are left. A string of such characters is unchanged. |
| Slug.CollapseRuns | lib/seo-utils.ts:182-183 | Only `-` and characters outside the class remain. Lower-case and space-free strings stay so. A first character outside the class is kept. |
| Slug.CollapseRunsScan | lib/seo-utils.ts:182-183 | Collapsing equals a left-to-right scan. Every maximal run of the class becomes exactly one `-`. Every other character is copied, in order. |
| Slug.CollapseHyphensNoDouble | lib/seo-utils.ts:183 | After hyphen collapsing there is no `--`. |
| Slug.StripHyphens | lib/seo-utils.ts:185 | No `-` is left at either end. A string without edge hyphens is unchanged. |
| Keywords.ExtractKeywords | lib/seo-utils.ts:191-212 | The result is the distinct existing keywords, in first-occurrence order, followed by the added words. The result has no duplicates. |
| Keywords.Added | lib/seo-utils.ts:207-212 | At most 10 added words, without duplicates. Each one occurs in the text and is not an existing keyword. They come in non-increasing frequency. A word left out occurs no more often than any added word. |
| Keywords.Words | lib/seo-utils.ts:196-200 | Every word is longer than 3 characters, is not a stop word, and is a lower-case word token. Every piece of the whitespace split that qualifies occurs in the result exactly as often as in the split. |
| Keywords.CountedOnlyAppend | lib/seo-utils.ts:200 | The filter distributes over concatenation, so the kept words stay in the order of the split. |
| Keywords.WordsIgnoreCase | lib/seo-utils.ts:197 | The words of a text do not depend on its case. |
| Keywords.WordFrequencies | lib/seo-utils.ts:202-205 | The loop counts every word. Its keys are the distinct words in first-occurrence order. |
| Keywords.TallyStep | lib/seo-utils.ts:202-205 | One `reduce` step keeps the tally. A word already counted goes up by one. A new word gets count 1 and is appended to the key order. |
| Keywords.EntryOrder | lib/seo-utils.ts:207 | `Object.entries` lists a permutation of the keys. The array-index keys come first, in ascending numeric order. The other keys follow in insertion order. |
| Keywords.DictionaryEntriesOfWords | lib/seo-utils.ts:202-207 | The entries read from the counted dictionary are the words with their counts. |
| Keywords.Ranked | lib/seo-utils.ts:207-208 | The entries are sorted by non-increasing count and are a permutation of the dictionary's entries. |
| Keywords.RankedCovers | lib/seo-utils.ts:207-208 | Every word has an entry carrying its count. |
| Keywords.TopWords | lib/seo-utils.ts:209-210 | At most 10 words, in non-increasing frequency. A word left out is no more frequent than any chosen one. |
| Keywords.ComputeKeywords | lib/seo-utils.ts:191-212 | The imperative computation, with its counting loop, returns exactly the keyword list. |
| Keywords.Dedup | lib/seo-utils.ts:212 | Duplicates are removed and the elements kept. |
| Keywords.DedupSnoc | lib/seo-utils.ts:212 | One more element is kept exactly when it has not been seen before, and then it goes at the end. |
| Keywords.DedupAppend | lib/seo-utils.ts:212 | Deduplicating a concatenation gives the deduplicated first part followed by the new elements of the second. |
| Sorting.Sort | lib/seo-utils.ts:207-208 | The sort gives a non-increasing permutation of its input. |
| Sorting.SortStable | lib/seo-utils.ts:207-208 | Entries with equal keys keep their relative order. |
| Coercion.SafeArray | components/website-preview.tsx:19 | Arrays are unchanged; anything else gives `[]`. |
| Coercion.SafeString | components/website-preview.tsx:20-26 | Strings are unchanged. A non-null object or array gives its first truthy `name`/`title`/`value`, or its JSON text. Any other value gives `""` when falsy, else `String(v)`. |
| Coercion.SafeStringIsString | components/website-preview.tsx:22-24 | The result is not a string exactly when an object's chosen member is a truthy non-string. |
| Coercion.SafeStringStable | components/website-preview.tsx:21 | A string result is a fixed point. |
| Coercion.SafeStringOfArray | components/website-preview.tsx:22-24 | An array has no such members, so it gives its JSON text. |
| Preview.WithField | components/website-preview.tsx:28-30 | The named field holds the new value. The key list is unchanged, or extended by the new key at the end. |
| Preview.WithFieldOthers | components/website-preview.tsx:28-30 | Every other field is unchanged. |
| Preview.Entries | components/website-preview.tsx:35 | The length is kept. Only the entry at `index` changes, and an out-of-range index changes nothing. |
| Preview.WithEntryField | components/website-preview.tsx:35 | In the entry, only the named field changes. |
| Preview.WithExperienceField | components/website-preview.tsx:32-37 | The profile's experience list becomes the updated list. |
| Preview.ExperienceUpdateOnlyThat | components/website-preview.tsx:32-37 | Every top-level field other than `experience` is unchanged. |
| Preview.ExperienceUpdateOutOfRange | components/website-preview.tsx:32-37 | For a profile object whose `experience` member is an array, an out-of-range index leaves the profile unchanged. |
| Preview.RangeParts | components/website-preview.tsx:183 | The range is split on `" - "`. Part 0 always exists; part 1 is undefined when there is no separator. |
| Preview.DateRangeEdit | components/website-preview.tsx:182-186 | The edit is two field updates of the same entry. |
| Preview.DateRangeEditEffect | components/website-preview.tsx:182-186 | `startDate` becomes part 0, or keeps the displayed old value when part 0 is empty. `endDate` becomes part 1, or keeps the old value when part 1 is empty or missing. No other field changes. |
| Preview.DateRangeRoundTrip | components/website-preview.tsx:181-186 | Saving the displayed `start - end` back unchanged leaves both dates as they were, for dates without hyphens. |
| Preview.WebsitePreview.UpdateField | components/website-preview.tsx:28-30 | The state becomes the field update of the old state. |
| Preview.WebsitePreview.UpdateExperience | components/website-preview.tsx:32-37 | The state becomes the experience update of the old state. |
| Preview.WebsitePreview.SaveDateRange | components/website-preview.tsx:182-186 | The state becomes the date-range edit of the old state. |
| Preview.SocialIcon | components/website-preview.tsx:39-57 | The icon is chosen from the lower-cased platform. Each of linkedin, github, twitter, email and phone gets its own icon exactly when it is the platform. Website and portfolio share the globe icon. Anything else gets the generic link. |
| Preview.SocialIconIgnoresCase | components/website-preview.tsx:40 | The choice ignores the platform's case. |
| Portfolio.VisibleParts | components/modern-portfolio.tsx:90-190 | Education, Experience, Projects and Skills each render exactly when their list is non-empty, in that order. |
| Portfolio.AllPartsInOrder | components/modern-portfolio.tsx:90-190 | With every list non-empty, all four sections appear, in page order. |
| Portfolio.Heading | components/modern-portfolio.tsx:72 | The heading is "HEY, I'M " + the upper-cased name + ".". It throws when the coerced name is not a string. |
| Portfolio.HeadingOfString | components/modern-portfolio.tsx:72 | For a string name the heading is exactly the greeting, the upper-cased name and a full stop. |
| Portfolio.Cased | components/modern-portfolio.tsx:72-184 | Case mapping of `safeString` succeeds exactly when it yields a string. Otherwise it throws a TypeError that names the method. |
| Portfolio.ContactHref | components/modern-portfolio.tsx:45-52 | The CONTACT link appears exactly when the e-mail is truthy, and links to `mailto:` + the e-mail. |
| Portfolio.LocationClause | components/modern-portfolio.tsx:77-84 | The "currently based in" clause appears exactly when the location is truthy. |
| Portfolio.EntryHref | components/modern-portfolio.tsx:100-123 | The link is the URL member when truthy, else `#`. It throws on a nullish entry. |
| Portfolio.ProjectHref | components/modern-portfolio.tsx:150 | The link is `url`, else `githubUrl`, else `#`. |
| Portfolio.TechItems | components/modern-portfolio.tsx:158-164 | Every technology but the last is followed by `", "`; the last is followed by nothing. |
| Portfolio.TechItemsJoin | components/modern-portfolio.tsx:158-164 | The rendered items read as the names joined with `", "`. |
| Portfolio.BuiltWith | components/modern-portfolio.tsx:156-165 | The "built with" clause is present only with technologies. |
| EditableFieldModel.EditableField.constructor | components/editable-field.tsx:19-21 | The field starts not editing, with the draft equal to the value. `showEditIcon` defaults to true. |
| EditableFieldModel.EditableField.StartEdit | components/editable-field.tsx:73 | The edit click enters editing mode and keeps the draft. |
| EditableFieldModel.EditableField.Change | components/editable-field.tsx:39 | Typing changes only the draft. |
| EditableFieldModel.EditableField.Save | components/editable-field.tsx:23-26 | Exactly one `onSave` call, with the current draft, is recorded, and editing mode ends. |
| EditableFieldModel.EditableField.Cancel | components/editable-field.tsx:28-31 | The draft goes back to the value. Editing mode ends and nothing is saved. |
| EditableFieldModel.EditableField.SetValue | components/editable-field.tsx:19-21 | A new value prop leaves the draft as it was. |
| EditableFieldModel.EditableField.Display | components/editable-field.tsx:67 | The display shows the value, else the placeholder. |
| EditableFieldModel.EditableField.EditButtonShown | components/editable-field.tsx:68-77 | The edit button shows exactly when not editing and `showEditIcon` is set. |
| EditableFieldModel.DisplayText | components/editable-field.tsx:67 | `value || placeholder`. |
| EditableFieldModel.CancelDiscardsDraft | components/editable-field.tsx:23-31 | After edit, type, cancel, edit and save, the original value is what gets saved. |
| EditableFieldModel.SaveSendsDraft | components/editable-field.tsx:23-26 | After edit, type and save, the typed text is saved once and editing ends. |
| SettingsPanel.SiteSettingsPanel.constructor | components/site-settings-panel.tsx:24-25 | The panel starts closed with nothing emitted. The draft is `value`, or the defaults when `value` is absent. |
| SettingsPanel.SiteSettingsPanel.Sync | components/site-settings-panel.tsx:27-29 | A new `value` overwrites the draft. |
| SettingsPanel.SiteSettingsPanel.Update | components/site-settings-panel.tsx:36-38 | Only the given key of the draft changes. |
| SettingsPanel.SiteSettingsPanel.UpdateTitle | components/site-settings-panel.tsx:40-42 | Only that section title of the draft changes. |
| SettingsPanel.SiteSettingsPanel.SetDarkMode | components/site-settings-panel.tsx:60 | The theme becomes dark exactly when the switch is checked. |
| SettingsPanel.SiteSettingsPanel.Apply | components/site-settings-panel.tsx:31-34 | The draft is emitted once and the sheet closes. |
| SettingsPanel.SiteSettingsPanel.Reset | components/site-settings-panel.tsx:108 | The draft becomes the defaults. Nothing is emitted, and the sheet stays open or closed as it was. |
| SettingsPanel.SiteSettingsPanel.SetOpen | components/site-settings-panel.tsx:24 | Only `open` changes. |
| SettingsPanel.SiteSettingsPanel.DarkModeChecked | components/site-settings-panel.tsx:60 | The switch is on exactly when the draft's theme is dark. |
| SettingsPanel.WithSetting | components/site-settings-panel.tsx:37 | The key gets the new value, and every other key keeps its own. |
| SettingsPanel.WithSettingSame | components/site-settings-panel.tsx:37 | Writing back a key's own value changes nothing. |
| SettingsPanel.WithSettingTwice | components/site-settings-panel.tsx:37 | Of two writes to one key, the later wins. |
| SettingsPanel.WithTitle | components/site-settings-panel.tsx:41 | That title is the new one, and the other titles are unchanged. |
| SettingsPanel.WithTitleSame | components/site-settings-panel.tsx:41 | Writing back a title's own text changes nothing. |
| SettingsPanel.TitleRows | components/site-settings-panel.tsx:97-102 | One input row per section, in declaration order, each showing that section's title. |
| SettingsPanel.TitleRowsCover | components/site-settings-panel.tsx:97-102 | Every section has a row, and the row keys are distinct. |
| SettingsPanel.DefaultTitleRows | types/site-settings.ts:22-28 | The default titles are About, Work Experience, Education, Skills, Projects. |
| SettingsPanel.SwitchTheme | components/site-settings-panel.tsx:60 | `dark` exactly when checked. |
| SettingsPanel.ThemeLabel | components/site-settings-panel.tsx:61 | The label names the theme. |
| SettingsPanel.RetitleAndApply | components/site-settings-panel.tsx:31-42 | Editing one title and applying emits the old settings with only that title changed, and closes the sheet. |
| SettingsPanel.ResetThenApply | components/site-settings-panel.tsx:31-34 | Reset followed by apply emits exactly the defaults. |
| SettingsPanel.MountedWithoutValue | types/site-settings.ts:16-29 | On the first render without a `value`, the draft is the defaults: the light theme, so the switch is off and its label reads Light. |
| Route.Dispatch | app/api/openai/route.ts:37-53 | `linkedinUrl` wins, then `content` with the name defaulting to "text file", then `base64Data` with `mimeType`. The request fails with the invalid-request message exactly when none of them is given. |
| Route.UploadCall | app/api/openai/route.ts:43-50 | A plain-text type or a `.txt`/`.md` name in any case goes, decoded, to the text parser. An `image/` type goes to the image parser and anything else to the document parser, each with its default name. |
| Route.LinkedInFirst | app/api/openai/route.ts:37-38 | A given `linkedinUrl` always selects the LinkedIn parser. |
| Route.UploadedMarkdownIsText | app/api/openai/route.ts:43-45 | A `.md` name sends the upload to the text parser whatever its declared type. |
| Route.Handle | app/api/openai/route.ts:32-55 | A body parse failure, the invalid-request error and the parser's outcome are propagated as they are. |
| Route.ErrorStatus | app/api/openai/route.ts:59 | The status is 500 exactly when the message contains "not configured", else 400. |
| Route.Post | app/api/openai/route.ts:20-62 | Without either key the response is 500 with the missing-key message. The status is 200 exactly when a profile is returned. The status is always 200, 400 or 500. The parser's result or thrown message maps to the response. |
| Route.InvalidRequestIs400 | app/api/openai/route.ts:51-59 | A request naming no source gets 400 with the invalid-request message. |
| Route.MissingKeyMessageIs500 | app/api/openai/route.ts:27 | The missing-key message itself contains "not configured". |
| VariantClass.GetVariantClass | lib/variant-class.ts:8-21 | A listed name gives its class, and any other name gives the silver class. The result is never empty. |
| VariantClass.EntryNames | lib/variant-class.ts:9-19 | The table lists exactly the nine names. |
| VariantClass.ResultInTable | lib/variant-class.ts:8-21 | Every result is one of the table's classes. |
| VariantClass.CaseSensitive | lib/variant-class.ts:20 | "Silver" and "Daisy" are not listed and reach silver through the fallback. |
| VariantClass.Fallbacks | lib/variant-class.ts:20 | `""` and `"primary"` give silver. |
| LinkedIn.ValidUrl | test-linkedin.js:8-10 | Valid exactly when `linkedin.com/in/` or `linkedin.com/pub/` occurs. |
| LinkedIn.Username | test-linkedin.js:3 | Absent exactly when there is no `/in/`. Otherwise it is the text after the first `/in/`, up to the next `/` or the end. |
| LinkedIn.JohnDoe | test-linkedin.js:2-12 | `https://www.linkedin.com/in/johndoe` is valid and gives `johndoe`. |

## Left out

- The language-model HTTP calls are not modelled: prompts, `fetch`, API-key reads and response unwrapping (lib/ai-parser.ts outside the extraction and normalisation blocks). `AiParser.ParseAnswer` starts from the answer text.
- The "Invalid response from Gemini API" check of the file variant (lib/ai-parser.ts:287) is left out: it inspects the HTTP response envelope.
- `JSON.parse`, `JSON.stringify`, `Number`-to-string conversion and base64 decoding are function parameters (`parse`, `stringify`, `numberText`, `decode`). Their results are not modelled.
- The parser functions the route imports are the parameter `run`. They live outside the modelled file, except for the normaliser.
- `Route.Post`: the body fields are modelled as strings or absent. A non-string JSON field would change truthiness and `toLowerCase` behaviour.
- Route logging (`console.error`) and the response's JSON encoding are not modelled.
- Case mapping (`toLowerCase`, `toUpperCase`) is ASCII-only. Unicode case mapping is not modelled.
- Objects are member lists. Their prototype keys (`constructor`, `__proto__`, `toString`) do not appear as members. For `extractKeywords`, this means a counted word such as `constructor` is not looked up on `Object.prototype`.
- `HtmlGenerator`: the style sheet text (lib/html-generator.ts:11-325) is the parameter `styles`. Only its fixed position in the head is modelled.
- `HtmlGenerator`: the page properties are proved for every `Template`, i.e. for any fixed text around the holes and any item renderers. `Standard` is the template holding the page's own text, and `GenerateWebsiteHtml` renders with it. No lemma is stated about `GenerateWebsiteHtml` itself, because its long literal text makes every such proof expensive; the doctype fact comes from `DoctypeFirst` together with `DocumentStartsWithDoctype`.
- `AiParser.NormalizeIdempotent` holds only for outputs whose skills are all strings. `AiParser.SkillObjectNotFixedPoint` shows that, without this condition, a second pass can change a skill.
- `SeoMeta.OptimizeMetaDescription`: `maxLength` is an integer. A fractional JavaScript number is not modelled.
- The generateOrganizationSchema (lib/seo-utils.ts:50-72) and generateFAQSchema (lib/seo-utils.ts:146-159) builders are left out.
- The JSX markup of the components is not modelled, only the values that decide it. React's rendering of falsy values is not modelled either.
- The modern portfolio's social link row (components/modern-portfolio.tsx:53-63) is left out. It feeds `safeString` values to `href` and to an upper-case label, as the heading does.
- `EditableFieldModel.EditableField`: the `multiline`, `className` and `editIconPosition` props only choose markup and are left out.
- `SettingsPanel.SiteSettingsPanel.Sync`: the component's effect also runs when `value` is `undefined`, setting `local` to `undefined`. The model's `Sync` takes a settings record, so that case is left out.
- The colour and font inputs of the panel (components/site-settings-panel.tsx:72-91) are all `Update` calls with the matching key.
- `MountedWithoutValue`: holds for the first render only. After mounting, the effect at components/site-settings-panel.tsx:27-29 sets `local` to `undefined`, and the next render's `local.theme` at line 60 throws. That second render is not modelled.
- `SettingsPanel.TitleRows`: the rows follow the declaration order of the section keys. The source iterates `Object.entries(local.sectionTitles)`, whose order is the insertion order of the object the parent supplies; the model assumes it is the declaration order.
- `HtmlGenerator.Sanitize`: counts characters as Unicode code points. JavaScript's `replace(/[^a-zA-Z0-9]/g, '_')` works on UTF-16 code units, so an astral character becomes two `_` in the source and one in the model.
- `HtmlGenerator.DownloadName`: inherits the code-point count of `Sanitize`. For a name with astral characters the source's file name is longer than the model's.
- `SeoMeta.OptimizeMetaDescription`: `length` and `substring` are taken over code points. JavaScript counts UTF-16 code units, so for text with astral characters the cut can fall elsewhere and can split a surrogate pair.
- `SeoMeta.OptimizeMetaDescriptionDefault`: the same code-point counting as `OptimizeMetaDescription`.
- `Profile` and `SiteSettings` are types only. Their guarantees are the shapes of the datatypes: required and optional fields, two themes and five section titles.

## Behaviour worth noting

The model follows the code, including:
- A truthy non-string `name` passes the normaliser unchanged (lib/ai-parser.ts:153).
- A `null` list element makes normalisation throw (lib/ai-parser.ts:163, 169).
- `safeString` can return an object when an object's `name` is itself a truthy object (components/website-preview.tsx:23). `Portfolio.Cased` then throws, as the code's `.toUpperCase()` call would.
- The generator takes no settings, so its section titles are fixed (lib/html-generator.ts:367-445).
