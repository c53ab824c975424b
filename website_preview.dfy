/**
  The editable state of components/website-preview.tsx: the profile record
  that `updateField`, `updateExperience` and the date-range editor replace
  step by step, and the choice of a social-link icon.

  The profile is a JavaScript object (`JsValue.Obj`); each update builds a
  new object by spreading the previous one, as the React updater does.
*/
module Preview {
  import opened Text
  import opened Js
  import opened Coercion

  // ---------------------------------------------------------------------------
  // The updates, as functions of the previous profile

  /** `{ ...prev, [field]: value }`. */
  function WithField(p: JsValue, field: string, value: JsValue): (r: JsValue)
    requires p.Obj?
    ensures r.Obj?
    ensures Lookup(r.members, field) == value
    ensures field in Keys(p.members) ==> Keys(r.members) == Keys(p.members)
    ensures field !in Keys(p.members) ==> Keys(r.members) == Keys(p.members) + [field]
  {
    LookupSetSame(p.members, field, value);
    KeysSetMember(p.members, field, value);
    Obj(SetMember(Spread(p), field, value))
  }

  /** `updateField` changes no field but the named one. */
  lemma WithFieldOthers(p: JsValue, field: string, value: JsValue)
    requires p.Obj?
    ensures forall other :: other != field ==>
      Lookup(WithField(p, field, value).members, other) == Lookup(p.members, other)
  {
    forall other | other != field
      ensures Lookup(WithField(p, field, value).members, other) == Lookup(p.members, other)
    {
      LookupSetOther(p.members, field, value, other);
    }
  }

  /** `{ ...exp, [field]: value }` on one experience entry. */
  function WithEntryField(exp: JsValue, field: string, value: JsValue): (r: JsValue)
    ensures r.Obj?
    ensures Lookup(r.members, field) == value
    ensures exp.Obj? ==> forall other :: other != field ==>
      Lookup(r.members, other) == Lookup(exp.members, other)
  {
    LookupSetSame(Spread(exp), field, value);
    forall other | other != field && exp.Obj?
      ensures Lookup(SetMember(Spread(exp), field, value), other) == Lookup(exp.members, other)
    {
      LookupSetOther(exp.members, field, value, other);
    }
    Obj(SetMember(Spread(exp), field, value))
  }

  /** `.map((exp, i) => (i === index ? { ...exp, [field]: value } : exp))`. */
  function Entries(exps: seq<JsValue>, index: int, field: string, value: JsValue): (r: seq<JsValue>)
    ensures |r| == |exps|
    ensures forall i :: 0 <= i < |exps| && i != index ==> r[i] == exps[i]
    ensures 0 <= index < |exps| ==> r[index] == WithEntryField(exps[index], field, value)
    ensures !(0 <= index < |exps|) ==> r == exps
  {
    seq(|exps|, i requires 0 <= i < |exps| => if i == index then WithEntryField(exps[i], field, value) else exps[i])
  }

  /** The experience list of a profile, as `safeArray(prev.experience)` reads it. */
  function Experience(p: JsValue): (r: seq<JsValue>)
    requires p.Obj?
    ensures Lookup(p.members, "experience").Arr? ==> r == Lookup(p.members, "experience").elems
  {
    SafeArray(Lookup(p.members, "experience"))
  }

  /** `{ ...prev, experience: safeArray(prev.experience).map(...) }`. */
  function WithExperienceField(p: JsValue, index: int, field: string, value: JsValue): (r: JsValue)
    requires p.Obj?
    ensures r.Obj?
    ensures Experience(r) == Entries(Experience(p), index, field, value)
  {
    WithField(p, "experience", Arr(Entries(Experience(p), index, field, value)))
  }

  /**
    `updateExperience` leaves every top-level field but `experience` as it
    was, keeps the list's length and order, changes no entry but the one at
    `index`, and in that entry changes only `field`.
  */
  lemma ExperienceUpdateOnlyThat(p: JsValue, index: int, field: string, value: JsValue)
    requires p.Obj?
    ensures var r := WithExperienceField(p, index, field, value);
      && (forall other :: other != "experience" ==> Lookup(r.members, other) == Lookup(p.members, other))
      && |Experience(r)| == |Experience(p)|
      && (forall i :: 0 <= i < |Experience(p)| && i != index ==> Experience(r)[i] == Experience(p)[i])
      && (0 <= index < |Experience(p)| ==>
            && Experience(r)[index].Obj?
            && Lookup(Experience(r)[index].members, field) == value
            && (Experience(p)[index].Obj? ==> forall other :: other != field ==>
                  Lookup(Experience(r)[index].members, other) == Lookup(Experience(p)[index].members, other)))
  {
    WithFieldOthers(p, "experience", Arr(Entries(Experience(p), index, field, value)));
  }

  /** With an experience array in place, an index outside it changes nothing at all. */
  lemma ExperienceUpdateOutOfRange(p: JsValue, index: int, field: string, value: JsValue)
    requires p.Obj? && Lookup(p.members, "experience").Arr?
    requires !(0 <= index < |Experience(p)|)
    ensures WithExperienceField(p, index, field, value) == p
  {
    var key := "experience";
    var i := KeyPosition(p.members, key);
    SetMemberExisting(p.members, key, Arr(Experience(p)));
  }

  /** A key that reads as something other than `undefined` is one of the members' keys. */
  lemma {:induction false} KeyPosition(members: seq<(string, JsValue)>, key: string) returns (i: nat)
    requires !Lookup(members, key).Undefined?
    ensures i < |members| && members[i].0 == key
  {
    if members[0].0 == key {
      i := 0;
    } else {
      var j := KeyPosition(members[1..], key);
      i := j + 1;
    }
  }

  // ---------------------------------------------------------------------------
  // The date-range editor

  const RangeSeparator := " - "

  /** `const [start, end] = value.split(" - ")`: the first two pieces; a missing one is `undefined`. */
  function RangeParts(value: string): (r: (JsValue, JsValue))
    ensures r.0 == Str(Split(value, RangeSeparator)[0])
    ensures |Split(value, RangeSeparator)| >= 2 ==> r.1 == Str(Split(value, RangeSeparator)[1])
    ensures |Split(value, RangeSeparator)| < 2 ==> r.1 == Undefined
  {
    var parts := Split(value, RangeSeparator);
    (Str(parts[0]), if |parts| >= 2 then Str(parts[1]) else Undefined)
  }

  /**
    The date-range `onSave` for the entry at `index`, rendered from `exp`:
    `startDate` becomes the first piece, `endDate` the second, and an empty
    or missing piece falls back to `safeString` of the entry's old value.
  */
  function DateRangeEdit(p: JsValue, index: int, value: string,
                         stringify: JsValue -> string, numberText: real -> string): (r: JsValue)
    requires p.Obj? && 0 <= index < |Experience(p)| && !Nullish(Experience(p)[index])
    ensures r.Obj?
  {
    var exp := Experience(p)[index];
    var (start, end) := RangeParts(value);
    var startValue := Or(start, SafeString(Get(exp, "startDate").value, stringify, numberText));
    var endValue := Or(end, SafeString(Get(exp, "endDate").value, stringify, numberText));
    WithExperienceField(WithExperienceField(p, index, "startDate", startValue), index, "endDate", endValue)
  }

  /** Two successive entry updates of different fields at the same index. */
  lemma TwoEntryUpdates(p: JsValue, index: int, f1: string, v1: JsValue, f2: string, v2: JsValue)
    requires p.Obj? && 0 <= index < |Experience(p)| && f1 != f2
    ensures var r := WithExperienceField(WithExperienceField(p, index, f1, v1), index, f2, v2);
      && |Experience(r)| == |Experience(p)|
      && (forall i :: 0 <= i < |Experience(p)| && i != index ==> Experience(r)[i] == Experience(p)[i])
      && Experience(r)[index].Obj?
      && Lookup(Experience(r)[index].members, f1) == v1
      && Lookup(Experience(r)[index].members, f2) == v2
      && (Experience(p)[index].Obj? ==> forall other :: other != f1 && other != f2 ==>
            Lookup(Experience(r)[index].members, other) == Lookup(Experience(p)[index].members, other))
      && (forall other :: other != "experience" ==> Lookup(r.members, other) == Lookup(p.members, other))
  {
    var q := WithExperienceField(p, index, f1, v1);
    ExperienceUpdateOnlyThat(p, index, f1, v1);
    ExperienceUpdateOnlyThat(q, index, f2, v2);
  }

  /**
    After the date-range edit, the entry reads the pieces of the edited text,
    each falling back to the old value's `safeString` when empty or missing;
    its other fields, the other entries and the other top-level fields are
    as they were.
  */
  lemma DateRangeEditEffect(p: JsValue, index: int, value: string,
                            stringify: JsValue -> string, numberText: real -> string)
    requires p.Obj? && 0 <= index < |Experience(p)| && !Nullish(Experience(p)[index])
    ensures var r, exp, parts := DateRangeEdit(p, index, value, stringify, numberText), Experience(p)[index], Split(value, RangeSeparator);
      && |Experience(r)| == |Experience(p)|
      && (forall i :: 0 <= i < |Experience(p)| && i != index ==> Experience(r)[i] == Experience(p)[i])
      && Experience(r)[index].Obj?
      && Lookup(Experience(r)[index].members, "startDate") ==
           (if parts[0] != "" then Str(parts[0]) else SafeString(Get(exp, "startDate").value, stringify, numberText))
      && Lookup(Experience(r)[index].members, "endDate") ==
           (if |parts| >= 2 && parts[1] != "" then Str(parts[1]) else SafeString(Get(exp, "endDate").value, stringify, numberText))
      && (exp.Obj? ==> forall other :: other != "startDate" && other != "endDate" ==>
            Lookup(Experience(r)[index].members, other) == Lookup(exp.members, other))
      && (forall other :: other != "experience" ==> Lookup(r.members, other) == Lookup(p.members, other))
  {
    var exp := Experience(p)[index];
    var (start, end) := RangeParts(value);
    var startValue := Or(start, SafeString(Get(exp, "startDate").value, stringify, numberText));
    var endValue := Or(end, SafeString(Get(exp, "endDate").value, stringify, numberText));
    TwoEntryUpdates(p, index, "startDate", startValue, "endDate", endValue);
  }

  /** No separator starts inside a hyphen-free `s` placed before a separator. */
  lemma NoSeparatorBefore(s: string, e: string)
    requires forall i :: 0 <= i < |s| ==> s[i] != '-'
    ensures forall j: nat :: j < |s| ==> !OccursAt(s + RangeSeparator + e, RangeSeparator, j)
  {
    var t := s + RangeSeparator + e;
    forall j: nat | j < |s| ensures !OccursAt(t, RangeSeparator, j) {
      if j + 1 < |s| {
        assert t[j + 1] == s[j + 1];
      } else {
        assert t[j + 1] == ' ';
      }
      assert j + 3 <= |t| ==> t[j..j + 3][1] == t[j + 1];
    }
  }

  /** `s + " - " + e` splits back into `s` and `e` when `s` has no hyphen and `e` no separator. */
  lemma SplitRange(s: string, e: string)
    requires forall i :: 0 <= i < |s| ==> s[i] != '-'
    requires !Contains(e, RangeSeparator)
    ensures Split(s + RangeSeparator + e, RangeSeparator) == [s, e]
  {
    var t := s + RangeSeparator + e;
    assert t[|s|..|s| + 3] == RangeSeparator;
    NoSeparatorBefore(s, e);
    SplitAtFirst(t, RangeSeparator, |s|);
    assert t[..|s|] == s;
    assert t[|s| + 3..] == e;
    assert Split(e, RangeSeparator) == [e];
  }

  /**
    Saving the displayed range unchanged keeps both dates, when they are
    non-empty strings, the start has no hyphen and the end no separator.
  */
  lemma DateRangeRoundTrip(p: JsValue, index: int, stringify: JsValue -> string, numberText: real -> string)
    requires p.Obj? && 0 <= index < |Experience(p)| && Experience(p)[index].Obj?
    requires var exp := Experience(p)[index];
      && Lookup(exp.members, "startDate").Str? && Lookup(exp.members, "endDate").Str?
      && Lookup(exp.members, "startDate").s != "" && Lookup(exp.members, "endDate").s != ""
      && (forall i :: 0 <= i < |Lookup(exp.members, "startDate").s| ==> Lookup(exp.members, "startDate").s[i] != '-')
      && !Contains(Lookup(exp.members, "endDate").s, RangeSeparator)
    ensures var exp := Experience(p)[index];
      var shown := Lookup(exp.members, "startDate").s + RangeSeparator + Lookup(exp.members, "endDate").s;
      var r := DateRangeEdit(p, index, shown, stringify, numberText);
      && Lookup(Experience(r)[index].members, "startDate") == Lookup(exp.members, "startDate")
      && Lookup(Experience(r)[index].members, "endDate") == Lookup(exp.members, "endDate")
  {
    var exp := Experience(p)[index];
    var s, e := Lookup(exp.members, "startDate").s, Lookup(exp.members, "endDate").s;
    SplitRange(s, e);
    DateRangeEditEffect(p, index, s + RangeSeparator + e, stringify, numberText);
  }

  // ---------------------------------------------------------------------------
  // The state

  /** The preview's `profileData` state. */
  class WebsitePreview {
    var profile: JsValue

    predicate Valid()
      reads this
    {
      profile.Obj?
    }

    /** `useState(initialData)`. */
    constructor(initial: JsValue)
      requires initial.Obj?
      ensures Valid() && profile == initial
    {
      profile := initial;
    }

    method UpdateField(field: string, value: string)
      requires Valid()
      modifies this
      ensures Valid()
      ensures profile == WithField(old(profile), field, Str(value))
    {
      profile := WithField(profile, field, Str(value));
    }

    method UpdateExperience(index: int, field: string, value: JsValue)
      requires Valid()
      modifies this
      ensures Valid()
      ensures profile == WithExperienceField(old(profile), index, field, value)
    {
      profile := WithExperienceField(profile, index, field, value);
    }

    /** The date-range `onSave`: two successive `updateExperience` calls, both falling back on the rendered entry. */
    method SaveDateRange(index: int, value: string, stringify: JsValue -> string, numberText: real -> string)
      requires Valid() && 0 <= index < |Experience(profile)| && !Nullish(Experience(profile)[index])
      modifies this
      ensures Valid()
      ensures profile == DateRangeEdit(old(profile), index, value, stringify, numberText)
    {
      var exp := Experience(profile)[index];
      var (start, end) := RangeParts(value);
      UpdateExperience(index, "startDate", Or(start, SafeString(Get(exp, "startDate").value, stringify, numberText)));
      UpdateExperience(index, "endDate", Or(end, SafeString(Get(exp, "endDate").value, stringify, numberText)));
    }
  }

  // ---------------------------------------------------------------------------
  // getSocialIcon

  datatype Icon = LinkedinIcon | GithubIcon | TwitterIcon | Globe | Mail | Phone | ExternalLink

  /** `getSocialIcon(platform)`: chosen by the lower-cased platform name. */
  function SocialIcon(platform: string): (r: Icon)
    ensures r == LinkedinIcon <==> ToLower(platform) == "linkedin"
    ensures r == GithubIcon <==> ToLower(platform) == "github"
    ensures r == TwitterIcon <==> ToLower(platform) == "twitter"
    ensures r == Globe <==> ToLower(platform) == "website" || ToLower(platform) == "portfolio"
    ensures r == Mail <==> ToLower(platform) == "email"
    ensures r == Phone <==> ToLower(platform) == "phone"
    ensures r == ExternalLink <==>
      ToLower(platform) !in {"linkedin", "github", "twitter", "website", "portfolio", "email", "phone"}
  {
    match ToLower(platform)
    case "linkedin" => LinkedinIcon
    case "github" => GithubIcon
    case "twitter" => TwitterIcon
    case "website" => Globe
    case "portfolio" => Globe
    case "email" => Mail
    case "phone" => Phone
    case _ => ExternalLink
  }

  /** The icon does not depend on the platform name's case. */
  lemma SocialIconIgnoresCase(platform: string)
    ensures SocialIcon(ToUpper(platform)) == SocialIcon(platform)
  {
    ToLowerOfUpper(platform);
  }

  lemma ToLowerOfUpper(s: string)
    ensures ToLower(ToUpper(s)) == ToLower(s)
  {
    assert forall i :: 0 <= i < |s| ==> LowerChar(UpperChar(s[i])) == LowerChar(s[i]);
  }
}
