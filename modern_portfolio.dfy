/**
  The rendering rules of components/modern-portfolio.tsx: which sections
  show and in what order, the heading, the contact link and location clause,
  the link targets with their `'#'` fallback, and the separators between
  technologies. The markup and styling around them are not modelled.

  The component reads a profile object; its values pass through `safeString`,
  whose result is then upper- or lower-cased. Case mapping is a string
  method, so on a non-string result the render throws.
*/
module Portfolio {
  import opened Wrappers
  import opened Text
  import opened Js
  import opened Coercion

  // ---------------------------------------------------------------------------
  // Sections

  datatype Part = EducationPart | ExperiencePart | ProjectsPart | SkillsPart

  /** The position of a part on the page. */
  function Rank(s: Part): nat {
    match s
    case EducationPart => 0
    case ExperiencePart => 1
    case ProjectsPart => 2
    case SkillsPart => 3
  }

  /** The profile field a part lists. */
  function FieldOf(s: Part): string {
    match s
    case EducationPart => "education"
    case ExperiencePart => "experience"
    case ProjectsPart => "projects"
    case SkillsPart => "skills"
  }

  /** `safeArray(profileData.<field>)`. */
  function ItemsOf(p: JsValue, s: Part): seq<JsValue>
    requires p.Obj?
  {
    SafeArray(Lookup(p.members, FieldOf(s)))
  }

  /** Whether a part is rendered: `safeArray(...).length > 0`. */
  predicate Shown(p: JsValue, s: Part)
    requires p.Obj?
  {
    |ItemsOf(p, s)| > 0
  }

  const PageOrder := [EducationPart, ExperiencePart, ProjectsPart, SkillsPart]

  /** Page order, keeping the parts whose flag is set. */
  function PartsOf(education: bool, experience: bool, projects: bool, skills: bool): (r: seq<Part>)
    ensures EducationPart in r <==> education
    ensures ExperiencePart in r <==> experience
    ensures ProjectsPart in r <==> projects
    ensures SkillsPart in r <==> skills
    ensures forall i, j :: 0 <= i < j < |r| ==> Rank(r[i]) < Rank(r[j])
  {
    (if education then [EducationPart] else [])
      + (if experience then [ExperiencePart] else [])
      + (if projects then [ProjectsPart] else [])
      + (if skills then [SkillsPart] else [])
  }

  /** The parts rendered, in page order. */
  function VisibleParts(p: JsValue): (r: seq<Part>)
    requires p.Obj?
    ensures EducationPart in r <==> Shown(p, EducationPart)
    ensures ExperiencePart in r <==> Shown(p, ExperiencePart)
    ensures ProjectsPart in r <==> Shown(p, ProjectsPart)
    ensures SkillsPart in r <==> Shown(p, SkillsPart)
    ensures forall i, j :: 0 <= i < j < |r| ==> Rank(r[i]) < Rank(r[j])
  {
    PartsOf(Shown(p, EducationPart), Shown(p, ExperiencePart), Shown(p, ProjectsPart), Shown(p, SkillsPart))
  }

  /** With every part shown, the parts come in page order. */
  lemma AllPartsOf()
    ensures PartsOf(true, true, true, true) == PageOrder
  {
  }

  /** A profile with all four lists non-empty shows Education, Experience, Projects, Skills. */
  lemma AllPartsInOrder(p: JsValue)
    requires p.Obj?
    requires forall s :: Shown(p, s)
    ensures VisibleParts(p) == PageOrder
  {
    var e, x, j, k := Shown(p, EducationPart), Shown(p, ExperiencePart), Shown(p, ProjectsPart), Shown(p, SkillsPart);
    assert e && x && j && k;
    assert VisibleParts(p) == PartsOf(e, x, j, k);
    AllPartsOf();
  }

  // ---------------------------------------------------------------------------
  // Text

  datatype Case = Upper | Lower

  /** `safeString(v).toUpperCase()` or `.toLowerCase()`: fails unless `safeString` gave a string. */
  function Cased(v: JsValue, c: Case, stringify: JsValue -> string, numberText: real -> string): (r: Result<string, Exception>)
    ensures r.Ok? <==> SafeString(v, stringify, numberText).Str?
    ensures r.Ok? && c == Upper ==> r.value == ToUpper(SafeString(v, stringify, numberText).s)
    ensures r.Ok? && c == Lower ==> r.value == ToLower(SafeString(v, stringify, numberText).s)
    ensures r.Err? ==> r.error == TypeError(SafeString(v, stringify, numberText), if c == Upper then "toUpperCase" else "toLowerCase")
  {
    var t := SafeString(v, stringify, numberText);
    if !t.Str? then Err(TypeError(t, if c == Upper then "toUpperCase" else "toLowerCase"))
    else if c == Upper then Ok(ToUpper(t.s))
    else Ok(ToLower(t.s))
  }

  const Greeting := "HEY, I'M "

  /** The heading: `HEY, I'M {safeString(profileData.name).toUpperCase()}.`. */
  function Heading(name: JsValue, stringify: JsValue -> string, numberText: real -> string): (r: Result<string, Exception>)
    ensures r.Ok? <==> SafeString(name, stringify, numberText).Str?
    ensures r.Ok? ==> StartsWith(r.value, Greeting) && EndsWith(r.value, ".")
    ensures r.Ok? ==> |r.value| == |Greeting| + |SafeString(name, stringify, numberText).s| + 1
    ensures r.Ok? ==> forall i :: |Greeting| <= i < |r.value| ==> !IsAsciiLower(r.value[i])
  {
    var upper :- Cased(name, Upper, stringify, numberText);
    var h := Greeting + upper + ".";
    assert h[..|Greeting|] == Greeting;
    assert forall i :: |Greeting| <= i < |h| - 1 ==> h[i] == upper[i - |Greeting|];
    Ok(h)
  }

  /** A string name appears upper-cased between the greeting and the full stop. */
  lemma HeadingOfString(name: string, stringify: JsValue -> string, numberText: real -> string)
    ensures Heading(Str(name), stringify, numberText) == Ok(Greeting + ToUpper(name) + ".")
  {
  }

  /** The CONTACT link's target: shown only when `email` is truthy. */
  function ContactHref(p: JsValue, numberText: real -> string): (r: Option<string>)
    requires p.Obj?
    ensures r.Some? <==> Truthy(Lookup(p.members, "email"))
    ensures r.Some? ==> r.value == "mailto:" + ToJsString(Lookup(p.members, "email"), numberText)
  {
    var email := Lookup(p.members, "email");
    if Truthy(email) then Some("mailto:" + ToJsString(email, numberText)) else None
  }

  /** The "currently based in" clause's link text: present only when `location` is truthy. */
  function LocationClause(p: JsValue, stringify: JsValue -> string, numberText: real -> string): (r: Result<Option<string>, Exception>)
    requires p.Obj?
    ensures !Truthy(Lookup(p.members, "location")) ==> r == Ok(None)
    ensures Truthy(Lookup(p.members, "location")) ==>
      (r.Ok? <==> Cased(Lookup(p.members, "location"), Lower, stringify, numberText).Ok?)
    ensures r.Ok? && r.value.Some? ==>
      Truthy(Lookup(p.members, "location"))
      && r.value.value == Cased(Lookup(p.members, "location"), Lower, stringify, numberText).value
  {
    var location := Lookup(p.members, "location");
    if !Truthy(location) then Ok(None)
    else
      var text :- Cased(location, Lower, stringify, numberText);
      Ok(Some(text))
  }

  // ---------------------------------------------------------------------------
  // Link targets

  /** `entry[key] || '#'`, as the education and experience links use it. */
  function EntryHref(entry: JsValue, key: string): (r: Result<JsValue, Exception>)
    ensures r.Err? <==> Nullish(entry)
    ensures r.Ok? ==> Truthy(r.value)
    ensures r.Ok? && Truthy(Get(entry, key).value) ==> r.value == Get(entry, key).value
    ensures r.Ok? && !Truthy(Get(entry, key).value) ==> r.value == Str("#")
  {
    var target :- Get(entry, key);
    Ok(Or(target, Str("#")))
  }

  /** `project.url || project.githubUrl || '#'`. */
  function ProjectHref(project: JsValue): (r: Result<JsValue, Exception>)
    ensures r.Err? <==> Nullish(project)
    ensures r.Ok? ==> Truthy(r.value)
    ensures r.Ok? && Truthy(Get(project, "url").value) ==> r.value == Get(project, "url").value
    ensures r.Ok? && !Truthy(Get(project, "url").value) && Truthy(Get(project, "githubUrl").value) ==>
      r.value == Get(project, "githubUrl").value
    ensures r.Ok? && !Truthy(Get(project, "url").value) && !Truthy(Get(project, "githubUrl").value) ==>
      r.value == Str("#")
  {
    if Nullish(project) then Err(TypeError(project, "url"))
    else Ok(Or(Get(project, "url").value, Or(Get(project, "githubUrl").value, Str("#"))))
  }

  // ---------------------------------------------------------------------------
  // Technologies

  /** Each technology followed by `', '`, except the last, which is followed by nothing. */
  function TechItems(names: seq<string>): (r: seq<string>)
    ensures |r| == |names|
    ensures forall i :: 0 <= i < |names| - 1 ==> r[i] == names[i] + ", "
    ensures |names| > 0 ==> r[|names| - 1] == names[|names| - 1]
  {
    seq(|names|, i requires 0 <= i < |names| => names[i] + (if i < |names| - 1 then ", " else ""))
  }

  /** The rendered technologies read as the names joined with `", "`. */
  lemma {:induction false} TechItemsJoin(names: seq<string>)
    ensures Concat(TechItems(names)) == Join(names, ", ")
  {
    if |names| > 1 {
      TechItemsJoin(names[1..]);
      assert TechItems(names)[1..] == TechItems(names[1..]);
    }
  }

  /** The `built with` clause: nothing for an empty list, otherwise the joined names. */
  function BuiltWith(names: seq<string>): (r: string)
    ensures names == [] ==> r == ""
    ensures names != [] ==> r == " built with " + Join(names, ", ")
  {
    TechItemsJoin(names);
    if |names| > 0 then " built with " + Concat(TechItems(names)) else ""
  }
}
