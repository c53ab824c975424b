/**
  The metadata helpers of lib/seo-utils.ts: the page metadata record, the
  Person and BreadcrumbList structured data, and the meta description
  shortener. The object literals they return are records here; a member the
  literal sets to `undefined` is `None`.
*/
module SeoMeta {
  import opened Wrappers
  import opened Text

  // ---------------------------------------------------------------------------
  // generatePageMetadata

  datatype SeoConfig = SeoConfig(
    title: string, description: string, keywords: Option<seq<string>>,
    canonicalUrl: Option<string>, ogImage: Option<string>,
    twitterHandle: Option<string>, noIndex: Option<bool>)

  /** An OpenGraph image entry, `{ url }`. */
  datatype ImageRef = ImageRef(url: string)

  datatype OpenGraph = OpenGraph(title: string, description: string, url: Option<string>, images: Option<seq<ImageRef>>)

  datatype Twitter = Twitter(card: string, title: string, description: string,
                             creator: Option<string>, images: Option<seq<string>>)

  datatype Robots = Robots(index: bool, follow: bool)

  datatype PageMetadata = PageMetadata(
    title: string, description: string, keywords: Option<seq<string>>,
    openGraph: OpenGraph, twitter: Twitter, robots: Robots, canonical: Option<string>)

  /** A `?:` test on an optional string: present and not empty. */
  predicate Filled(o: Option<string>) {
    o.Some? && o.value != ""
  }

  /** `!config.noIndex`. */
  function Indexable(noIndex: Option<bool>): (r: bool)
    ensures r <==> noIndex != Some(true)
  {
    match noIndex
    case None => true
    case Some(b) => !b
  }

  function GeneratePageMetadata(c: SeoConfig): (r: PageMetadata)
    ensures r.title == c.title && r.openGraph.title == c.title && r.twitter.title == c.title
    ensures r.description == c.description && r.openGraph.description == c.description
            && r.twitter.description == c.description
    ensures r.keywords == c.keywords && r.openGraph.url == c.canonicalUrl && r.canonical == c.canonicalUrl
    ensures r.twitter.card == "summary_large_image" && r.twitter.creator == c.twitterHandle
    ensures r.openGraph.images.Some? <==> Filled(c.ogImage)
    ensures r.twitter.images.Some? <==> Filled(c.ogImage)
    ensures Filled(c.ogImage) ==> r.openGraph.images == Some([ImageRef(c.ogImage.value)]) && r.twitter.images == Some([c.ogImage.value])
    ensures r.robots.index == r.robots.follow
    ensures r.robots.index <==> c.noIndex != Some(true)
  {
    var images := if Filled(c.ogImage) then Some([c.ogImage.value]) else None;
    var ogImages := if Filled(c.ogImage) then Some([ImageRef(c.ogImage.value)]) else None;
    var indexable := Indexable(c.noIndex);
    PageMetadata(
      c.title, c.description, c.keywords,
      OpenGraph(c.title, c.description, c.canonicalUrl, ogImages),
      Twitter("summary_large_image", c.title, c.description, c.twitterHandle, images),
      Robots(indexable, indexable),
      c.canonicalUrl)
  }

  // ---------------------------------------------------------------------------
  // generatePersonSchema

  datatype EducationInput = EducationInput(institution: string, degree: Option<string>, field: Option<string>)

  datatype WorkInput = WorkInput(company: string, position: string, startDate: Option<string>, endDate: Option<string>)

  datatype PersonInput = PersonInput(
    name: string, jobTitle: Option<string>, description: Option<string>, email: Option<string>,
    telephone: Option<string>, url: Option<string>, image: Option<string>, location: Option<string>,
    skills: Option<seq<string>>, education: Option<seq<EducationInput>>, workExperience: Option<seq<WorkInput>>)

  /** `{'@type': 'Organization', name, description}`. */
  datatype Organization = Organization(name: string, description: string)

  /** `{'@type': 'PostalAddress', addressLocality}`. */
  datatype PostalAddress = PostalAddress(addressLocality: string)

  datatype PersonSchema = PersonSchema(
    name: string, jobTitle: Option<string>, description: Option<string>, email: Option<string>,
    telephone: Option<string>, url: Option<string>, image: Option<string>,
    address: Option<PostalAddress>, skills: Option<seq<string>>,
    alumniOf: Option<seq<Organization>>, worksFor: Option<seq<Organization>>)

  const SchemaContext := "https://schema.org"

  /** How a template literal writes an optional string: a missing one reads "undefined". */
  function Interpolated(o: Option<string>): (r: string)
    ensures o.Some? ==> r == o.value
    ensures o.None? ==> r == "undefined"
  {
    if o.Some? then o.value else "undefined"
  }

  /** `` `${edu.degree} in ${edu.field}`.trim() ``. */
  function DegreeText(e: EducationInput): string {
    Trim(Interpolated(e.degree) + " in " + Interpolated(e.field))
  }

  function Alumnus(e: EducationInput): (r: Organization)
    ensures r.name == e.institution
  {
    Organization(e.institution, DegreeText(e))
  }

  function Alumni(es: seq<EducationInput>): (r: seq<Organization>)
    ensures |r| == |es|
    ensures forall i :: 0 <= i < |es| ==> r[i] == Alumnus(es[i])
  {
    if |es| == 0 then [] else [Alumnus(es[0])] + Alumni(es[1..])
  }

  /** `workExperience.slice(0, 1).map(...)`: the first job, if any. */
  function Employers(ws: seq<WorkInput>): (r: seq<Organization>)
    ensures |r| <= 1
    ensures |r| == 1 <==> |ws| >= 1
    ensures |ws| >= 1 ==> r[0] == Organization(ws[0].company, ws[0].position)
  {
    if |ws| == 0 then [] else [Organization(ws[0].company, ws[0].position)]
  }

  function GeneratePersonSchema(p: PersonInput): (r: PersonSchema)
    ensures r.name == p.name && r.jobTitle == p.jobTitle && r.description == p.description
    ensures r.email == p.email && r.telephone == p.telephone && r.url == p.url && r.image == p.image
    ensures r.skills == p.skills
    ensures r.address.Some? <==> Filled(p.location)
    ensures Filled(p.location) ==> r.address == Some(PostalAddress(p.location.value))
    ensures r.alumniOf.Some? <==> p.education.Some?
    ensures p.education.Some? ==> |r.alumniOf.value| == |p.education.value|
    ensures r.worksFor.Some? <==> p.workExperience.Some?
    ensures p.workExperience.Some? ==> |r.worksFor.value| <= 1
  {
    PersonSchema(
      p.name, p.jobTitle, p.description, p.email, p.telephone, p.url, p.image,
      if Filled(p.location) then Some(PostalAddress(p.location.value)) else None,
      p.skills,
      if p.education.Some? then Some(Alumni(p.education.value)) else None,
      if p.workExperience.Some? then Some(Employers(p.workExperience.value)) else None)
  }

  /** An education entry without degree and field reads "undefined in undefined". */
  lemma MissingDegreeText(institution: string)
    ensures DegreeText(EducationInput(institution, None, None)) == "undefined in undefined"
  {
    var s := "undefined in undefined";
    assert !IsJsSpace(s[0]) && !IsJsSpace(s[|s| - 1]);
  }

  // ---------------------------------------------------------------------------
  // generateBreadcrumbSchema

  datatype Crumb = Crumb(name: string, url: string)

  /** `{'@type': 'ListItem', position, name, item}`. */
  datatype ListItem = ListItem(position: nat, name: string, item: string)

  /** The list items of the crumbs from the `offset`-th on, numbered from `offset + 1`. */
  function ListItemsFrom(items: seq<Crumb>, offset: nat): (r: seq<ListItem>)
    ensures |r| == |items|
    ensures forall i :: 0 <= i < |items| ==>
      r[i].position == offset + i + 1 && r[i].name == items[i].name && r[i].item == items[i].url
  {
    if |items| == 0 then []
    else [ListItem(offset + 1, items[0].name, items[0].url)] + ListItemsFrom(items[1..], offset + 1)
  }

  /** `itemListElement`: item i has position i + 1 and copies the crumb's name and URL. */
  function BreadcrumbItems(items: seq<Crumb>): (r: seq<ListItem>)
    ensures |r| == |items|
    ensures forall i :: 0 <= i < |items| ==>
      r[i] == ListItem(i + 1, items[i].name, items[i].url)
  {
    ListItemsFrom(items, 0)
  }

  /** A crumb added at the end becomes the last item, numbered one past the others. */
  lemma BreadcrumbAppend(items: seq<Crumb>, c: Crumb)
    ensures BreadcrumbItems(items + [c]) == BreadcrumbItems(items) + [ListItem(|items| + 1, c.name, c.url)]
  {
    var l, r := BreadcrumbItems(items + [c]), BreadcrumbItems(items) + [ListItem(|items| + 1, c.name, c.url)];
    assert forall i :: 0 <= i < |items| ==> (items + [c])[i] == items[i];
    assert forall i :: 0 <= i < |l| ==> l[i] == r[i];
  }

  // ---------------------------------------------------------------------------
  // optimizeMetaDescription

  /** The default of the `maxLength` parameter. */
  const DefaultMaxLength := 160

  /** A space in the first `limit` characters that lies beyond 80% of `maxLength`. */
  predicate LateSpace(description: string, limit: nat, maxLength: int, k: int) {
    0 <= k < limit <= |description| && description[k] == ' ' && 5 * k > 4 * maxLength
  }

  /**
    What is kept of a description longer than `maxLength`: its first
    `maxLength - 3` characters, cut back to the last space in them when that
    space lies beyond 80% of `maxLength`.
  */
  function Kept(description: string, maxLength: int): (kept: string)
    requires |description| > maxLength
    ensures var limit := Clamp(maxLength - 3, |description|);
      && |kept| <= limit && kept == description[..|kept|]
      && (|kept| < limit <==> exists k :: LateSpace(description, limit, maxLength, k))
      && (|kept| < limit ==> description[|kept|] == ' ' && forall j :: |kept| < j < limit ==> description[j] != ' ')
  {
    var limit := Clamp(maxLength - 3, |description|);
    var trimmed := Substring(description, 0, maxLength - 3);
    assert trimmed == description[..limit];
    var lastSpace := LastIndexOfChar(trimmed, ' ');
    if 5 * lastSpace > 4 * maxLength then
      if lastSpace >= 0 then
        assert LateSpace(description, limit, maxLength, lastSpace);
        Substring(trimmed, 0, lastSpace)
      else
        assert limit == 0;
        Substring(trimmed, 0, lastSpace)
    else
      assert forall k :: LateSpace(description, limit, maxLength, k) ==> k <= lastSpace;
      trimmed
  }

  /** `optimizeMetaDescription(description, maxLength)`. */
  function OptimizeMetaDescription(description: string, maxLength: int): (r: string)
    ensures |description| <= maxLength ==> r == description
    ensures |description| > maxLength ==> EndsWith(r, "...") && StartsWith(description, r[..|r| - 3])
    ensures |description| > maxLength && maxLength >= 3 ==> |r| <= maxLength
    ensures |description| > maxLength ==>
      var limit := Clamp(maxLength - 3, |description|);
      && |r| - 3 <= limit
      && (|r| - 3 < limit <==> exists k :: LateSpace(description, limit, maxLength, k))
  {
    if |description| <= maxLength then description
    else
      var kept := Kept(description, maxLength);
      assert (kept + "...")[..|kept|] == kept;
      kept + "..."
  }

  /** `optimizeMetaDescription(description)`: the default `maxLength` of 160 applies. */
  function OptimizeMetaDescriptionDefault(description: string): (r: string)
    ensures |description| <= DefaultMaxLength ==> r == description
    ensures |description| > DefaultMaxLength ==> EndsWith(r, "...") && |r| <= DefaultMaxLength
  {
    OptimizeMetaDescription(description, DefaultMaxLength)
  }
}
