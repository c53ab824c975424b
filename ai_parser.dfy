/**
  The model's reading of lib/ai-parser.ts: recovering a JSON value from a
  language model's answer, and normalising that value into a profile.

  The three exported parsers share one normalisation object literal; they
  differ only in whether the skills are cut to the first ten (the file
  parser) and in the fallbacks used for falsy scalar fields (the LinkedIn
  parser). `Normalize` is that literal, parameterised by both. The network
  request around it is not modelled; `JSON.parse` is the parameter `parse`
  (None when it throws) and the text of a number is the parameter
  `numberText`.
*/
module AiParser {
  import opened Wrappers
  import opened Text
  import opened Js

  /** Which of the three exported parsers produced the profile. */
  datatype Variant = FromText | FromFile | FromLinkedIn

  /** The `||` defaults of the six scalar fields. */
  datatype Fallbacks = Fallbacks(
    name: string, title: string, email: string,
    phone: string, location: string, summary: string)

  const GenericFallbacks := Fallbacks("Unknown", "", "", "", "", "")

  const LinkedInFallbacks := Fallbacks(
    "Professional Name", "Software Developer", "contact@example.com", "",
    "San Francisco, CA",
    "Experienced professional with expertise in technology and innovation.")

  const ExtractFailure := "Unable to extract JSON from AI response"
  const EmptyAnswer := "Empty response from AI"

  function SkillCapOf(v: Variant): Option<nat> {
    if v == FromFile then Some(10) else None
  }

  function FallbacksOf(v: Variant): Fallbacks {
    if v == FromLinkedIn then LinkedInFallbacks else GenericFallbacks
  }

  /**
    The object the normalisation literal builds. Scalars stay JavaScript
    values: a truthy non-string `name` passes through unchanged.
  */
  datatype NormalizedProfile = NormalizedProfile(
    name: JsValue, title: JsValue, email: JsValue, phone: JsValue,
    location: JsValue, summary: JsValue,
    experience: seq<JsValue>, education: seq<JsValue>, skills: seq<JsValue>,
    projects: seq<JsValue>, socialLinks: seq<JsValue>)

  /** The profile as the JavaScript object it is, keys in the literal's order. */
  function ToObject(p: NormalizedProfile): JsValue {
    Obj([("name", p.name), ("title", p.title), ("email", p.email), ("phone", p.phone),
         ("location", p.location), ("summary", p.summary),
         ("experience", Arr(p.experience)), ("education", Arr(p.education)),
         ("skills", Arr(p.skills)), ("projects", Arr(p.projects)),
         ("socialLinks", Arr(p.socialLinks))])
  }

  // ---------------------------------------------------------------------------
  // extractJson

  /** `s.replace(/```json|```/g, "")`: at each position the longer marker is tried first. */
  function RemoveFences(s: string): (r: string)
    ensures |r| <= |s|
    ensures (forall i :: 0 <= i < |s| ==> s[i] != '`') ==> r == s
    decreases |s|
  {
    if StartsWith(s, "```json") then assert s[0] == s[..7][0]; RemoveFences(s[7..])
    else if StartsWith(s, "```") then assert s[0] == s[..3][0]; RemoveFences(s[3..])
    else if |s| == 0 then ""
    else [s[0]] + RemoveFences(s[1..])
  }

  /** The second candidate: fences removed, then trimmed. It holds no "```" and has no `\s` at either end. */
  function Stripped(raw: string): (r: string)
    ensures !Contains(r, "```")
    ensures |r| > 0 ==> !IsJsSpace(r[0]) && !IsJsSpace(r[|r| - 1])
  {
    RemoveFencesLeavesNoFence(raw);
    TrimNoFence(RemoveFences(raw));
    Trim(RemoveFences(raw))
  }

  /** Trimming a text without "```" leaves none, and no `\s` at either end. */
  lemma TrimNoFence(s: string)
    requires !Contains(s, "```")
    ensures !Contains(Trim(s), "```")
    ensures |Trim(s)| > 0 ==> !IsJsSpace(Trim(s)[0]) && !IsJsSpace(Trim(s)[|Trim(s)| - 1])
  {
    var start := TrimStart(s);
    var r := TrimEnd(start);
    var a := |s| - |start|;
    assert r == s[a..a + |r|];
    NoFenceSlice(s, a, a + |r|);
    if |r| > 0 {
      assert r[0] == start[0];
    }
  }

  /** A piece of a text without "```" has none either. */
  lemma NoFenceSlice(s: string, a: nat, b: nat)
    requires a <= b <= |s| && !Contains(s, "```")
    ensures !Contains(s[a..b], "```")
  {
    var t := s[a..b];
    forall k: nat | k + 3 <= |t| ensures !OccursAt(t, "```", k) {
      assert t[k] == s[a + k] && t[k + 1] == s[a + k + 1] && t[k + 2] == s[a + k + 2];
      assert t[k..k + 3] == s[a + k..a + k + 3];
      assert !OccursAt(s, "```", a + k);
    }
  }

  /**
    `s.match(/{[\s\S]*}/)`: the leftmost-longest span from a `{` to a `}`,
    i.e. from the first `{` to the last `}` when that comes after it.
  */
  predicate IsBraceSpan(s: string, a: int, b: int) {
    && 0 <= a < b < |s| && s[a] == '{' && s[b] == '}'
    && (forall k :: 0 <= k < a ==> s[k] != '{')
    && (forall k :: b < k < |s| ==> s[k] != '}')
  }

  function BraceSpan(s: string): (r: Option<string>)
    ensures r.Some? <==> exists a, b :: 0 <= a < b < |s| && s[a] == '{' && s[b] == '}'
    ensures r.Some? ==> exists a, b :: IsBraceSpan(s, a, b) && r.value == s[a..b + 1]
  {
    var a := IndexOfChar(s, '{');
    var b := LastIndexOfChar(s, '}');
    if a >= 0 && b > a then assert IsBraceSpan(s, a, b); Some(s[a..b + 1]) else None
  }

  /**
    `extractJson`: the raw answer, then the stripped answer, then the brace
    span of the stripped answer; the first that parses wins.
  */
  function ExtractJson(raw: string, parse: string -> Option<JsValue>): (r: Result<JsValue, Exception>)
    ensures parse(raw).Some? ==> r == Ok(parse(raw).value)
    ensures parse(raw).None? && parse(Stripped(raw)).Some? ==> r == Ok(parse(Stripped(raw)).value)
    ensures parse(raw).None? && parse(Stripped(raw)).None? ==>
      r == (match BraceSpan(Stripped(raw))
            case Some(span) => if parse(span).Some? then Ok(parse(span).value) else Err(Error(ExtractFailure))
            case None => Err(Error(ExtractFailure)))
  {
    if parse(raw).Some? then Ok(parse(raw).value)
    else
      var stripped := Stripped(raw);
      if parse(stripped).Some? then Ok(parse(stripped).value)
      else
        match BraceSpan(stripped)
        case Some(span) => if parse(span).Some? then Ok(parse(span).value) else Err(Error(ExtractFailure))
        case None => Err(Error(ExtractFailure))
  }

  /** A character that is not a backtick is kept, whatever follows it. */
  lemma KeepsNonBacktick(s: string)
    requires |s| > 0 && s[0] != '`'
    ensures RemoveFences(s) == [s[0]] + RemoveFences(s[1..])
  {
  }

  /** A character put before a fence-free string makes no fence unless it is a backtick before two more. */
  lemma FenceFreeCons(c: char, rt: string)
    requires !Contains(rt, "```")
    requires c == '`' ==> !(|rt| >= 2 && rt[0] == '`' && rt[1] == '`')
    ensures !Contains([c] + rt, "```")
  {
    var r := [c] + rt;
    assert IndexOf(rt, "```") == -1;
    forall k: nat | k + 3 <= |r| ensures !OccursAt(r, "```", k) {
      if k > 0 {
        assert r[k..k + 3] == rt[k - 1..k + 2];
        assert !OccursAt(rt, "```", k - 1);
      } else {
        assert r[..3] == [c, rt[0], rt[1]];
        assert "```" == ['`', '`', '`'];
      }
    }
  }

  /**
    When `s` starts with a backtick that begins no fence, the removal of the
    rest does not start with two backticks.
  */
  lemma NoTicksAfterLoneTick(s: string)
    requires |s| > 0 && s[0] == '`' && !StartsWith(s, "```")
    ensures !(|RemoveFences(s[1..])| >= 2 && RemoveFences(s[1..])[0] == '`' && RemoveFences(s[1..])[1] == '`')
  {
    var t := s[1..];
    if |t| > 0 && t[0] != '`' {
      KeepsNonBacktick(t);
    } else if |t| > 0 {
      // t starts with one backtick but not two, so its first character is kept
      // and the character after it is not a backtick.
      if |t| >= 2 {
        assert s[..3] == [s[0], t[0], t[1]];
      }
      assert !(|t| >= 2 && t[1] == '`');
      assert !StartsWith(t, "```");
      var u := t[1..];
      assert RemoveFences(t) == [t[0]] + RemoveFences(u);
      if |u| > 0 {
        KeepsNonBacktick(u);
      }
    }
  }

  /** After the fences are removed no "```" is left, not even one formed by the removal. */
  lemma {:induction false} RemoveFencesLeavesNoFence(s: string)
    ensures !Contains(RemoveFences(s), "```")
    decreases |s|
  {
    if StartsWith(s, "```json") {
      RemoveFencesLeavesNoFence(s[7..]);
    } else if StartsWith(s, "```") {
      RemoveFencesLeavesNoFence(s[3..]);
    } else if |s| > 0 {
      RemoveFencesLeavesNoFence(s[1..]);
      if s[0] == '`' {
        NoTicksAfterLoneTick(s);
      }
      FenceFreeCons(s[0], RemoveFences(s[1..]));
    }
  }

  // ---------------------------------------------------------------------------
  // The normalisation literal

  /** `v.key` for a value whose property access does not throw. */
  function Member(v: JsValue, key: string): JsValue
    requires !Nullish(v)
  {
    Get(v, key).value
  }

  /** `skills.slice(0, cap)` when there is a cap. */
  function Capped(s: seq<JsValue>, cap: Option<nat>): (r: seq<JsValue>)
    ensures cap.None? ==> r == s
    ensures cap.Some? ==> r == s[..if |s| < cap.value then |s| else cap.value]
  {
    match cap
    case None => s
    case Some(c) => if |s| < c then s else s[..c]
  }

  /** The skills callback: `typeof skill === "string" ? skill : skill.name || skill.skill || String(skill)`. */
  function CoerceSkill(skill: JsValue, numberText: real -> string): (r: Result<JsValue, Exception>)
    ensures skill.Str? ==> r == Ok(skill)
    ensures r.Err? <==> Nullish(skill)
    ensures r.Err? ==> r.error == TypeError(skill, "name")
    ensures !skill.Str? && !Nullish(skill) ==>
      r == Ok(Or(Member(skill, "name"), Or(Member(skill, "skill"), Str(ToJsString(skill, numberText)))))
  {
    if skill.Str? then Ok(skill)
    else if Nullish(skill) then Err(TypeError(skill, "name"))
    else
      var name := Member(skill, "name");
      if Truthy(name) then Ok(name)
      else Ok(Or(Member(skill, "skill"), Str(ToJsString(skill, numberText))))
  }

  /** `skills.map(...)` with that callback: the first throw propagates. */
  function CoerceSkills(skills: seq<JsValue>, numberText: real -> string): (r: Result<seq<JsValue>, Exception>)
    ensures r.Err? <==> exists i :: 0 <= i < |skills| && Nullish(skills[i])
    ensures r.Ok? ==> |r.value| == |skills|
    ensures r.Ok? ==> forall i :: 0 <= i < |skills| ==> CoerceSkill(skills[i], numberText) == Ok(r.value[i])
  {
    if |skills| == 0 then Ok([])
    else
      var head :- CoerceSkill(skills[0], numberText);
      var tail :- CoerceSkills(skills[1..], numberText);
      assert forall i :: 1 <= i < |skills| ==> skills[i] == skills[1..][i - 1];
      Ok([head] + tail)
  }

  /** The projects callback: `{...project, technologies: Array.isArray(project.technologies) ? project.technologies : []}`. */
  function CoerceProject(project: JsValue): (r: Result<JsValue, Exception>)
    ensures r.Err? <==> Nullish(project)
  {
    var technologies :- Get(project, "technologies");
    Ok(Obj(SetMember(Spread(project), "technologies", Arr(ArrayOrEmpty(technologies)))))
  }

  function CoerceProjects(projects: seq<JsValue>): (r: Result<seq<JsValue>, Exception>)
    ensures r.Err? <==> exists i :: 0 <= i < |projects| && Nullish(projects[i])
    ensures r.Ok? ==> |r.value| == |projects|
    ensures r.Ok? ==> forall i :: 0 <= i < |projects| ==> CoerceProject(projects[i]) == Ok(r.value[i])
  {
    if |projects| == 0 then Ok([])
    else
      var head :- CoerceProject(projects[0]);
      var tail :- CoerceProjects(projects[1..]);
      assert forall i :: 1 <= i < |projects| ==> projects[i] == projects[1..][i - 1];
      Ok([head] + tail)
  }

  /** The `skills` member of the literal: `Array.isArray(skills) ? skills.slice(0, cap).map(...) : []`. */
  function SkillsMember(skills: JsValue, skillCap: Option<nat>, numberText: real -> string): Result<seq<JsValue>, Exception> {
    if skills.Arr? then CoerceSkills(Capped(skills.elems, skillCap), numberText) else Ok([])
  }

  /** The `projects` member of the literal. */
  function ProjectsMember(projects: JsValue): Result<seq<JsValue>, Exception> {
    if projects.Arr? then CoerceProjects(projects.elems) else Ok([])
  }

  /** The profile a successful normalisation builds, member by member. */
  function Assemble(parsed: JsValue, fb: Fallbacks, skills: seq<JsValue>, projects: seq<JsValue>): NormalizedProfile
    requires !Nullish(parsed)
  {
    NormalizedProfile(
      Or(Member(parsed, "name"), Str(fb.name)), Or(Member(parsed, "title"), Str(fb.title)),
      Or(Member(parsed, "email"), Str(fb.email)), Or(Member(parsed, "phone"), Str(fb.phone)),
      Or(Member(parsed, "location"), Str(fb.location)), Or(Member(parsed, "summary"), Str(fb.summary)),
      ArrayOrEmpty(Member(parsed, "experience")), ArrayOrEmpty(Member(parsed, "education")),
      skills, projects, ArrayOrEmpty(Member(parsed, "socialLinks")))
  }

  /**
    The normalisation literal. Its members are read in source order; the
    first read throws exactly when `parsed` is nullish, so after that only
    the skills and projects callbacks (in that order) can throw.
  */
  function Normalize(parsed: JsValue, skillCap: Option<nat>, fb: Fallbacks, numberText: real -> string)
    : (r: Result<NormalizedProfile, Exception>)
    ensures Nullish(parsed) ==> r == Err(TypeError(parsed, "name"))
    ensures r.Ok? && skillCap.Some? ==> |r.value.skills| <= skillCap.value
    ensures r.Ok? ==> !Nullish(parsed)
    ensures r.Ok? ==> |r.value.projects| == (if Member(parsed, "projects").Arr? then |Member(parsed, "projects").elems| else 0)
  {
    if Nullish(parsed) then Err(TypeError(parsed, "name"))
    else
      var skills :- SkillsMember(Member(parsed, "skills"), skillCap, numberText);
      var projects :- ProjectsMember(Member(parsed, "projects"));
      Ok(Assemble(parsed, fb, skills, projects))
  }

  /** `parseWithAI`, `parseWithAIFromFile` and `parseLinkedInProfile` after the answer text arrives. */
  function ParseAnswer(variant: Variant, answer: string, parse: string -> Option<JsValue>, numberText: real -> string)
    : (r: Result<NormalizedProfile, Exception>)
    ensures answer == "" ==> r == Err(Error(EmptyAnswer))
    ensures answer != "" && ExtractJson(answer, parse).Err? ==> r == Err(Error(ExtractFailure))
    ensures answer != "" && ExtractJson(answer, parse).Ok? ==>
      r == Normalize(ExtractJson(answer, parse).value, SkillCapOf(variant), FallbacksOf(variant), numberText)
  {
    if answer == "" then Err(Error(EmptyAnswer))
    else
      var parsed :- ExtractJson(answer, parse);
      Normalize(parsed, SkillCapOf(variant), FallbacksOf(variant), numberText)
  }

  // ---------------------------------------------------------------------------
  // Properties of the normalisation

  /**
    Normalisation throws exactly when the parsed value is null, or a kept
    skill is nullish, or a project is nullish.
  */
  lemma NormalizeFails(parsed: JsValue, skillCap: Option<nat>, fb: Fallbacks, numberText: real -> string)
    ensures Normalize(parsed, skillCap, fb, numberText).Err? <==>
      Nullish(parsed)
      || (Member(parsed, "skills").Arr?
          && exists i :: 0 <= i < |Capped(Member(parsed, "skills").elems, skillCap)|
                         && Nullish(Capped(Member(parsed, "skills").elems, skillCap)[i]))
      || (Member(parsed, "projects").Arr?
          && exists i :: 0 <= i < |Member(parsed, "projects").elems| && Nullish(Member(parsed, "projects").elems[i]))
  {
  }

  /** Scalars: the parsed member when truthy, otherwise the variant's fallback string. */
  lemma NormalizeScalars(parsed: JsValue, skillCap: Option<nat>, fb: Fallbacks, numberText: real -> string)
    requires Normalize(parsed, skillCap, fb, numberText).Ok?
    ensures var p := Normalize(parsed, skillCap, fb, numberText).value;
      && (Truthy(Member(parsed, "name")) ==> p.name == Member(parsed, "name"))
      && (!Truthy(Member(parsed, "name")) ==> p.name == Str(fb.name))
      && (Truthy(Member(parsed, "title")) ==> p.title == Member(parsed, "title"))
      && (!Truthy(Member(parsed, "title")) ==> p.title == Str(fb.title))
      && (Truthy(Member(parsed, "email")) ==> p.email == Member(parsed, "email"))
      && (!Truthy(Member(parsed, "email")) ==> p.email == Str(fb.email))
      && (Truthy(Member(parsed, "phone")) ==> p.phone == Member(parsed, "phone"))
      && (!Truthy(Member(parsed, "phone")) ==> p.phone == Str(fb.phone))
      && (Truthy(Member(parsed, "location")) ==> p.location == Member(parsed, "location"))
      && (!Truthy(Member(parsed, "location")) ==> p.location == Str(fb.location))
      && (Truthy(Member(parsed, "summary")) ==> p.summary == Member(parsed, "summary"))
      && (!Truthy(Member(parsed, "summary")) ==> p.summary == Str(fb.summary))
  {
  }

  /** With the generic fallbacks the name is never falsy; the other five scalars become "" when falsy. */
  lemma GenericScalarDefaults(parsed: JsValue, skillCap: Option<nat>, numberText: real -> string)
    requires Normalize(parsed, skillCap, GenericFallbacks, numberText).Ok?
    ensures var p := Normalize(parsed, skillCap, GenericFallbacks, numberText).value;
      && Truthy(p.name)
      && (!Truthy(Member(parsed, "title")) ==> p.title == Str(""))
      && (!Truthy(Member(parsed, "email")) ==> p.email == Str(""))
      && (!Truthy(Member(parsed, "phone")) ==> p.phone == Str(""))
      && (!Truthy(Member(parsed, "location")) ==> p.location == Str(""))
      && (!Truthy(Member(parsed, "summary")) ==> p.summary == Str(""))
  {
  }

  /** An empty object read by the LinkedIn parser gets the placeholder profile of that parser. */
  lemma LinkedInEmptyObject(numberText: real -> string)
    ensures var r := Normalize(Obj([]), SkillCapOf(FromLinkedIn), FallbacksOf(FromLinkedIn), numberText);
      && r.Ok?
      && r.value.name == Str("Professional Name") && r.value.title == Str("Software Developer")
      && r.value.email == Str("contact@example.com") && r.value.phone == Str("")
      && r.value.location == Str("San Francisco, CA")
      && r.value.summary == Str("Experienced professional with expertise in technology and innovation.")
      && r.value.experience == [] && r.value.education == [] && r.value.skills == []
      && r.value.projects == [] && r.value.socialLinks == []
  {
  }

  /** `experience`, `education` and `socialLinks`: arrays pass through, anything else gives []. */
  lemma NormalizeLists(parsed: JsValue, skillCap: Option<nat>, fb: Fallbacks, numberText: real -> string)
    requires Normalize(parsed, skillCap, fb, numberText).Ok?
    ensures var p := Normalize(parsed, skillCap, fb, numberText).value;
      && p.experience == ArrayOrEmpty(Member(parsed, "experience"))
      && p.education == ArrayOrEmpty(Member(parsed, "education"))
      && p.socialLinks == ArrayOrEmpty(Member(parsed, "socialLinks"))
  {
  }

  /**
    `skills`: [] for a non-array; otherwise one entry per kept element, in
    order, strings unchanged and every other (non-nullish) value replaced by
    `.name`, else `.skill`, else its `String` text.
  */
  lemma NormalizeSkills(parsed: JsValue, skillCap: Option<nat>, fb: Fallbacks, numberText: real -> string)
    requires Normalize(parsed, skillCap, fb, numberText).Ok?
    ensures var p := Normalize(parsed, skillCap, fb, numberText).value;
      var input := Member(parsed, "skills");
      && (!input.Arr? ==> p.skills == [])
      && (input.Arr? ==>
            var kept := Capped(input.elems, skillCap);
            && |p.skills| == |kept|
            && (forall i :: 0 <= i < |kept| && kept[i].Str? ==> p.skills[i] == kept[i])
            && (forall i :: 0 <= i < |kept| && !kept[i].Str? ==>
                  !Nullish(kept[i])
                  && p.skills[i] == Or(Member(kept[i], "name"), Or(Member(kept[i], "skill"), Str(ToJsString(kept[i], numberText)))))
            && (forall i :: 0 <= i < |kept| && kept[i].Obj? ==>
                  p.skills[i] == Or(Lookup(kept[i].members, "name"),
                                    Or(Lookup(kept[i].members, "skill"), Str("[object Object]")))))
  {
    NormalizeParts(parsed, skillCap, fb, numberText);
    SkillsMemberShape(Member(parsed, "skills"), skillCap, numberText);
  }

  /** The skills member, element by element. */
  lemma SkillsMemberShape(input: JsValue, skillCap: Option<nat>, numberText: real -> string)
    requires SkillsMember(input, skillCap, numberText).Ok?
    ensures var skills := SkillsMember(input, skillCap, numberText).value;
      && (!input.Arr? ==> skills == [])
      && (input.Arr? ==>
            var kept := Capped(input.elems, skillCap);
            && |skills| == |kept|
            && (forall i :: 0 <= i < |kept| && kept[i].Str? ==> skills[i] == kept[i])
            && (forall i :: 0 <= i < |kept| && !kept[i].Str? ==>
                  !Nullish(kept[i])
                  && skills[i] == Or(Member(kept[i], "name"), Or(Member(kept[i], "skill"), Str(ToJsString(kept[i], numberText)))))
            && (forall i :: 0 <= i < |kept| && kept[i].Obj? ==>
                  skills[i] == Or(Lookup(kept[i].members, "name"),
                                  Or(Lookup(kept[i].members, "skill"), Str("[object Object]")))))
  {
  }

  /** A successful normalisation assembles the results of both callbacks. */
  lemma NormalizeParts(parsed: JsValue, skillCap: Option<nat>, fb: Fallbacks, numberText: real -> string)
    requires Normalize(parsed, skillCap, fb, numberText).Ok?
    ensures !Nullish(parsed)
    ensures SkillsMember(Member(parsed, "skills"), skillCap, numberText).Ok?
    ensures ProjectsMember(Member(parsed, "projects")).Ok?
    ensures Normalize(parsed, skillCap, fb, numberText).value == Assemble(parsed, fb,
      SkillsMember(Member(parsed, "skills"), skillCap, numberText).value, ProjectsMember(Member(parsed, "projects")).value)
  {
  }

  /** The file parser keeps at most the first ten skills. */
  lemma FileVariantCapsSkills(parsed: JsValue, numberText: real -> string)
    requires Normalize(parsed, SkillCapOf(FromFile), GenericFallbacks, numberText).Ok?
    ensures |Normalize(parsed, SkillCapOf(FromFile), GenericFallbacks, numberText).value.skills| <= 10
  {
  }

  /** After spreading and setting `technologies`, an object's other keys read as before. */
  lemma CoerceProjectCopies(project: JsValue, key: string)
    requires project.Obj? && key != "technologies"
    ensures CoerceProject(project).Ok?
    ensures CoerceProject(project).value.Obj?
    ensures Lookup(CoerceProject(project).value.members, key) == Lookup(project.members, key)
    ensures Lookup(CoerceProject(project).value.members, "technologies")
            == Arr(ArrayOrEmpty(Lookup(project.members, "technologies")))
  {
    var t := Arr(ArrayOrEmpty(Lookup(project.members, "technologies")));
    LookupSetOther(project.members, "technologies", t, key);
    LookupSetSame(project.members, "technologies", t);
  }

  /**
    `projects`: [] for a non-array; otherwise one object per project, in
    order, whose `technologies` is an array and whose other keys are copied.
  */
  lemma NormalizeProjects(parsed: JsValue, skillCap: Option<nat>, fb: Fallbacks, numberText: real -> string)
    requires Normalize(parsed, skillCap, fb, numberText).Ok?
    ensures var p := Normalize(parsed, skillCap, fb, numberText).value;
      var input := Member(parsed, "projects");
      && (!input.Arr? ==> p.projects == [])
      && (input.Arr? ==>
            && |p.projects| == |input.elems|
            && (forall i :: 0 <= i < |input.elems| ==>
                  p.projects[i].Obj? && Lookup(p.projects[i].members, "technologies").Arr?)
            && (forall i, key :: 0 <= i < |input.elems| && input.elems[i].Obj? && key != "technologies" ==>
                  Lookup(p.projects[i].members, key) == Lookup(input.elems[i].members, key)))
  {
    var input := Member(parsed, "projects");
    if input.Arr? {
      var p := Normalize(parsed, skillCap, fb, numberText).value;
      var r := CoerceProjects(input.elems);
      assert r.Ok? && p.projects == r.value;
      forall i | 0 <= i < |input.elems|
        ensures p.projects[i].Obj? && Lookup(p.projects[i].members, "technologies").Arr?
      {
        assert CoerceProject(input.elems[i]) == Ok(p.projects[i]);
        var t := Get(input.elems[i], "technologies").value;
        LookupSetSame(Spread(input.elems[i]), "technologies", Arr(ArrayOrEmpty(t)));
      }
      forall i, key | 0 <= i < |input.elems| && input.elems[i].Obj? && key != "technologies"
        ensures Lookup(p.projects[i].members, key) == Lookup(input.elems[i].members, key)
      {
        assert CoerceProject(input.elems[i]) == Ok(p.projects[i]);
        CoerceProjectCopies(input.elems[i], key);
      }
    }
  }

  // ---------------------------------------------------------------------------
  // Normalising a normalised profile again

  lemma {:induction false} SetMemberHasKey(members: seq<(string, JsValue)>, key: string, value: JsValue)
    ensures exists i :: 0 <= i < |SetMember(members, key, value)| && SetMember(members, key, value)[i].0 == key
  {
    if |members| > 0 && members[0].0 != key {
      SetMemberHasKey(members[1..], key, value);
      var r := SetMember(members, key, value);
      var i :| 0 <= i < |SetMember(members[1..], key, value)| && SetMember(members[1..], key, value)[i].0 == key;
      assert r[i + 1] == SetMember(members[1..], key, value)[i];
    } else {
      assert SetMember(members, key, value)[0].0 == key;
    }
  }

  /** A normalised project comes out of the projects callback unchanged. */
  lemma CoerceProjectIdempotent(project: JsValue)
    requires CoerceProject(project).Ok?
    ensures CoerceProject(CoerceProject(project).value) == CoerceProject(project)
  {
    var t := Arr(ArrayOrEmpty(Get(project, "technologies").value));
    var m := SetMember(Spread(project), "technologies", t);
    LookupSetSame(Spread(project), "technologies", t);
    SetMemberHasKey(Spread(project), "technologies", t);
    SetMemberExisting(m, "technologies", t);
  }

  lemma {:induction false} CoerceProjectsIdempotent(projects: seq<JsValue>)
    requires CoerceProjects(projects).Ok?
    ensures CoerceProjects(CoerceProjects(projects).value) == CoerceProjects(projects)
  {
    if |projects| > 0 {
      var out := CoerceProjects(projects).value;
      CoerceProjectIdempotent(projects[0]);
      CoerceProjectsIdempotent(projects[1..]);
      assert out[1..] == CoerceProjects(projects[1..]).value;
    }
  }

  lemma {:induction false} CoerceSkillsOfStrings(skills: seq<JsValue>, numberText: real -> string)
    requires forall i :: 0 <= i < |skills| ==> skills[i].Str?
    ensures CoerceSkills(skills, numberText) == Ok(skills)
  {
    if |skills| > 0 {
      CoerceSkillsOfStrings(skills[1..], numberText);
      assert skills == [skills[0]] + skills[1..];
    }
  }

  /** The keys of `ToObject`, in order. */
  const ObjectKeys := ["name", "title", "email", "phone", "location", "summary",
                       "experience", "education", "skills", "projects", "socialLinks"]

  /** Each key of `ToObject` reads as the member stored under it. */
  lemma LookupObjectMember(p: NormalizedProfile, i: nat)
    requires i < 11
    ensures Member(ToObject(p), ObjectKeys[i]) == ToObject(p).members[i].1
  {
    var m := ToObject(p).members;
    assert forall j :: 0 <= j < |m| ==> m[j].0 == ObjectKeys[j];
    LookupFirst(m, ObjectKeys[i], i);
  }

  lemma LookupObjectKeys(p: NormalizedProfile)
    ensures var o := ToObject(p);
      && Member(o, "name") == p.name && Member(o, "title") == p.title
      && Member(o, "email") == p.email && Member(o, "phone") == p.phone
      && Member(o, "location") == p.location && Member(o, "summary") == p.summary
      && Member(o, "experience") == Arr(p.experience) && Member(o, "education") == Arr(p.education)
      && Member(o, "skills") == Arr(p.skills) && Member(o, "projects") == Arr(p.projects)
      && Member(o, "socialLinks") == Arr(p.socialLinks)
  {
    LookupObjectMember(p, 0);
    LookupObjectMember(p, 1);
    LookupObjectMember(p, 2);
    LookupObjectMember(p, 3);
    LookupObjectMember(p, 4);
    LookupObjectMember(p, 5);
    LookupObjectMember(p, 6);
    LookupObjectMember(p, 7);
    LookupObjectMember(p, 8);
    LookupObjectMember(p, 9);
    LookupObjectMember(p, 10);
  }

  /** Normalising a profile's object rebuilds its members, with the fallbacks applied to the scalars once more. */
  lemma NormalizeOfObject(p: NormalizedProfile, skillCap: Option<nat>, fb: Fallbacks, numberText: real -> string)
    requires SkillsMember(Arr(p.skills), skillCap, numberText) == Ok(p.skills)
    requires ProjectsMember(Arr(p.projects)) == Ok(p.projects)
    ensures Normalize(ToObject(p), skillCap, fb, numberText) == Ok(NormalizedProfile(
      Or(p.name, Str(fb.name)), Or(p.title, Str(fb.title)), Or(p.email, Str(fb.email)),
      Or(p.phone, Str(fb.phone)), Or(p.location, Str(fb.location)), Or(p.summary, Str(fb.summary)),
      p.experience, p.education, p.skills, p.projects, p.socialLinks))
  {
    var o := ToObject(p);
    LookupObjectKeys(p);
    NormalizeSucceeds(o, skillCap, fb, numberText, p.skills, p.projects);
  }

  /** When both callbacks succeed, the normalisation assembles the profile from their results. */
  lemma NormalizeSucceeds(parsed: JsValue, skillCap: Option<nat>, fb: Fallbacks, numberText: real -> string,
                          skills: seq<JsValue>, projects: seq<JsValue>)
    requires !Nullish(parsed)
    requires SkillsMember(Member(parsed, "skills"), skillCap, numberText) == Ok(skills)
    requires ProjectsMember(Member(parsed, "projects")) == Ok(projects)
    ensures Normalize(parsed, skillCap, fb, numberText) == Ok(Assemble(parsed, fb, skills, projects))
  {
  }

  /**
    Normalising the object a normalisation produced gives the same profile
    again, provided its skills are all strings (a kept skill object whose
    `.name` is a truthy non-string is not a fixed point: see
    `SkillObjectNotFixedPoint`).
  */
  lemma NormalizeIdempotent(parsed: JsValue, skillCap: Option<nat>, fb: Fallbacks, numberText: real -> string)
    requires Normalize(parsed, skillCap, fb, numberText).Ok?
    requires var p := Normalize(parsed, skillCap, fb, numberText).value;
      forall i :: 0 <= i < |p.skills| ==> p.skills[i].Str?
    ensures var p := Normalize(parsed, skillCap, fb, numberText).value;
      Normalize(ToObject(p), skillCap, fb, numberText) == Ok(p)
  {
    var p := Normalize(parsed, skillCap, fb, numberText).value;
    var skillsIn := Member(parsed, "skills");
    var projectsIn := Member(parsed, "projects");
    assert p == Assemble(parsed, fb, SkillsMember(skillsIn, skillCap, numberText).value,
                         ProjectsMember(projectsIn).value);
    CoerceSkillsOfStrings(p.skills, numberText);
    if skillsIn.Arr? {
      assert |p.skills| == |Capped(skillsIn.elems, skillCap)|;
    }
    assert Capped(p.skills, skillCap) == p.skills;
    if projectsIn.Arr? {
      CoerceProjectsIdempotent(projectsIn.elems);
    }
    NormalizeOfObject(p, skillCap, fb, numberText);
    OrIdempotent(Member(parsed, "name"), Str(fb.name));
    OrIdempotent(Member(parsed, "title"), Str(fb.title));
    OrIdempotent(Member(parsed, "email"), Str(fb.email));
    OrIdempotent(Member(parsed, "phone"), Str(fb.phone));
    OrIdempotent(Member(parsed, "location"), Str(fb.location));
    OrIdempotent(Member(parsed, "summary"), Str(fb.summary));
  }

  /** `{skills: [{name: {}}]}` keeps `{}` as a skill, which a second pass turns into "[object Object]". */
  lemma SkillObjectNotFixedPoint(numberText: real -> string)
    ensures var once := CoerceSkill(Obj([("name", Obj([]))]), numberText);
      once == Ok(Obj([])) && CoerceSkill(once.value, numberText) == Ok(Str("[object Object]"))
  {
  }

  // ---------------------------------------------------------------------------
  // Worked examples

  /** `{name: "Ada Lovelace", skills: "Math"}`: the scalar skills value becomes [], not ["Math"]. */
  lemma AdaExample(numberText: real -> string)
    ensures var r := Normalize(Obj([("name", Str("Ada Lovelace")), ("skills", Str("Math"))]),
                               None, GenericFallbacks, numberText);
      && r.Ok? && r.value.name == Str("Ada Lovelace")
      && r.value.title == Str("") && r.value.email == Str("") && r.value.phone == Str("")
      && r.value.location == Str("") && r.value.summary == Str("")
      && r.value.experience == [] && r.value.education == [] && r.value.skills == []
      && r.value.projects == [] && r.value.socialLinks == []
  {
    var m := [("name", Str("Ada Lovelace")), ("skills", Str("Math"))];
    assert Lookup(m, "skills") == Str("Math");
    assert Lookup(m, "projects") == Undefined;
  }

  /** `[{name: "Go"}, "Rust", {skill: "C++"}]` becomes `["Go", "Rust", "C++"]`. */
  lemma SkillsExample(numberText: real -> string)
    ensures CoerceSkills([Obj([("name", Str("Go"))]), Str("Rust"), Obj([("skill", Str("C++"))])], numberText)
            == Ok([Str("Go"), Str("Rust"), Str("C++")])
  {
    var s := [Obj([("name", Str("Go"))]), Str("Rust"), Obj([("skill", Str("C++"))])];
    assert CoerceSkill(s[0], numberText) == Ok(Str("Go"));
    assert Lookup(s[2].members, "name") == Undefined;
    assert CoerceSkill(s[2], numberText) == Ok(Str("C++"));
    var r := CoerceSkills(s, numberText);
    assert !Nullish(s[0]) && !Nullish(s[1]) && !Nullish(s[2]);
    assert r.Ok? && |r.value| == 3;
    assert r.value == [r.value[0], r.value[1], r.value[2]];
  }
}
