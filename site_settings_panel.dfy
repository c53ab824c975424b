/**
  The `SiteSettingsPanel` component of components/site-settings-panel.tsx:
  a sheet holding a draft copy `local` of the settings, edited field by
  field and handed to `onChange` on apply. Every call of `onChange` is
  recorded, in order, in `emitted`.
*/
module SettingsPanel {
  import opened Wrappers
  import opened SiteSettings

  // ---------------------------------------------------------------------------
  // Keys of a settings record

  /** A key of `SiteSettings` together with a value of that key's type. */
  datatype Setting =
    | FontFamily(font: string)
    | ThemeOf(theme: Theme)
    | PrimaryColor(color: string)
    | BackgroundColor(color: string)
    | TextColor(color: string)
    | Titles(titles: SectionTitles)

  datatype Key = FontFamilyKey | ThemeKey | PrimaryColorKey | BackgroundColorKey | TextColorKey | TitlesKey

  function KeyOf(x: Setting): Key {
    match x
    case FontFamily(_) => FontFamilyKey
    case ThemeOf(_) => ThemeKey
    case PrimaryColor(_) => PrimaryColorKey
    case BackgroundColor(_) => BackgroundColorKey
    case TextColor(_) => TextColorKey
    case Titles(_) => TitlesKey
  }

  /** `s[k]`. */
  function Field(s: Settings, k: Key): (r: Setting)
    ensures KeyOf(r) == k
  {
    match k
    case FontFamilyKey => FontFamily(s.fontFamily)
    case ThemeKey => ThemeOf(s.theme)
    case PrimaryColorKey => PrimaryColor(s.primaryColor)
    case BackgroundColorKey => BackgroundColor(s.backgroundColor)
    case TextColorKey => TextColor(s.textColor)
    case TitlesKey => Titles(s.sectionTitles)
  }

  /** Two settings records with the same value at every key are the same record. */
  lemma SettingsExtensional(a: Settings, b: Settings)
    requires forall k :: Field(a, k) == Field(b, k)
    ensures a == b
  {
    assert Field(a, FontFamilyKey) == Field(b, FontFamilyKey);
    assert Field(a, ThemeKey) == Field(b, ThemeKey);
    assert Field(a, PrimaryColorKey) == Field(b, PrimaryColorKey);
    assert Field(a, BackgroundColorKey) == Field(b, BackgroundColorKey);
    assert Field(a, TextColorKey) == Field(b, TextColorKey);
    assert Field(a, TitlesKey) == Field(b, TitlesKey);
  }

  /** `{ ...s, [key]: v }`: the key gets the new value and every other key keeps its own. */
  function WithSetting(s: Settings, x: Setting): (r: Settings)
    ensures Field(r, KeyOf(x)) == x
    ensures forall k :: k != KeyOf(x) ==> Field(r, k) == Field(s, k)
  {
    match x
    case FontFamily(v) => s.(fontFamily := v)
    case ThemeOf(v) => s.(theme := v)
    case PrimaryColor(v) => s.(primaryColor := v)
    case BackgroundColor(v) => s.(backgroundColor := v)
    case TextColor(v) => s.(textColor := v)
    case Titles(v) => s.(sectionTitles := v)
  }

  /** Setting a key to the value it already has changes nothing. */
  lemma WithSettingSame(s: Settings, k: Key)
    ensures WithSetting(s, Field(s, k)) == s
  {
    var r := WithSetting(s, Field(s, k));
    assert forall j :: Field(r, j) == Field(s, j);
    SettingsExtensional(r, s);
  }

  /** Of two updates of the same key, the later wins. */
  lemma WithSettingTwice(s: Settings, x: Setting, y: Setting)
    requires KeyOf(x) == KeyOf(y)
    ensures WithSetting(WithSetting(s, x), y) == WithSetting(s, y)
  {
    var a, b := WithSetting(WithSetting(s, x), y), WithSetting(s, y);
    assert forall j :: Field(a, j) == Field(b, j);
    SettingsExtensional(a, b);
  }

  // ---------------------------------------------------------------------------
  // Section titles

  datatype Section = AboutSection | ExperienceSection | EducationSection | SkillsSection | ProjectsSection

  /** `t[section]`. */
  function Title(t: SectionTitles, section: Section): string {
    match section
    case AboutSection => t.about
    case ExperienceSection => t.experience
    case EducationSection => t.education
    case SkillsSection => t.skills
    case ProjectsSection => t.projects
  }

  /** The key under which a section's title is stored. */
  function SectionKey(section: Section): string {
    match section
    case AboutSection => "about"
    case ExperienceSection => "experience"
    case EducationSection => "education"
    case SkillsSection => "skills"
    case ProjectsSection => "projects"
  }

  /** Two title records that agree on every section are the same record. */
  lemma TitlesExtensional(a: SectionTitles, b: SectionTitles)
    requires forall section :: Title(a, section) == Title(b, section)
    ensures a == b
  {
    assert Title(a, AboutSection) == Title(b, AboutSection);
    assert Title(a, ExperienceSection) == Title(b, ExperienceSection);
    assert Title(a, EducationSection) == Title(b, EducationSection);
    assert Title(a, SkillsSection) == Title(b, SkillsSection);
    assert Title(a, ProjectsSection) == Title(b, ProjectsSection);
  }

  /** `{ ...t, [section]: v }`: that section's title is `v` and the others keep theirs. */
  function WithTitle(t: SectionTitles, section: Section, v: string): (r: SectionTitles)
    ensures Title(r, section) == v
    ensures forall other :: other != section ==> Title(r, other) == Title(t, other)
  {
    match section
    case AboutSection => t.(about := v)
    case ExperienceSection => t.(experience := v)
    case EducationSection => t.(education := v)
    case SkillsSection => t.(skills := v)
    case ProjectsSection => t.(projects := v)
  }

  /** Writing back a section's own title changes nothing. */
  lemma WithTitleSame(t: SectionTitles, section: Section)
    ensures WithTitle(t, section, Title(t, section)) == t
  {
    var r := WithTitle(t, section, Title(t, section));
    assert forall other :: Title(r, other) == Title(t, other);
    TitlesExtensional(r, t);
  }

  /**
    The title inputs as `Object.entries(local.sectionTitles)` lists them:
    one row per section, in the order the record declares its keys, which
    a spread update of an existing key does not change.
  */
  function TitleRows(t: SectionTitles): (r: seq<(string, string)>)
    ensures |r| == 5
    ensures forall i :: 0 <= i < 5 ==> r[i] == (SectionKey(SectionAt(i)), Title(t, SectionAt(i)))
  {
    seq(5, i requires 0 <= i < 5 => (SectionKey(SectionAt(i)), Title(t, SectionAt(i))))
  }

  /** The section in row `i` of the title inputs. */
  function SectionAt(i: nat): (r: Section)
    requires i < 5
  {
    [AboutSection, ExperienceSection, EducationSection, SkillsSection, ProjectsSection][i]
  }

  /** Every section has exactly one row, and the rows' keys are distinct. */
  lemma TitleRowsCover(t: SectionTitles, section: Section)
    ensures exists i :: 0 <= i < 5 && SectionAt(i) == section
    ensures forall i, j :: 0 <= i < j < 5 ==> TitleRows(t)[i].0 != TitleRows(t)[j].0
  {
    match section
    case AboutSection => assert SectionAt(0) == section;
    case ExperienceSection => assert SectionAt(1) == section;
    case EducationSection => assert SectionAt(2) == section;
    case SkillsSection => assert SectionAt(3) == section;
    case ProjectsSection => assert SectionAt(4) == section;
  }

  /** The default settings list their titles as About, Work Experience, Education, Skills, Projects. */
  lemma DefaultTitleRows()
    ensures TitleRows(Default.sectionTitles) == [("about", "About"), ("experience", "Work Experience"),
      ("education", "Education"), ("skills", "Skills"), ("projects", "Projects")]
  {
  }

  /** The theme the dark-mode switch writes: dark exactly when checked. */
  function SwitchTheme(checked: bool): (r: Theme)
    ensures r == Dark <==> checked
  {
    if checked then Dark else Light
  }

  /** The label beside the switch. */
  function ThemeLabel(theme: Theme): (r: string)
    ensures theme == Dark ==> r == "Dark"
    ensures theme == Light ==> r == "Light"
  {
    if theme == Dark then "Dark" else "Light"
  }

  // ---------------------------------------------------------------------------
  // The panel

  class SiteSettingsPanel {
    var open: bool
    var local: Settings
    var emitted: seq<Settings>

    /** Mounting: closed, and the draft is `value || defaultSiteSettings`. */
    constructor (value: Option<Settings>)
      ensures !open && emitted == []
      ensures local == value.GetOr(Default)
    {
      open := false;
      local := value.GetOr(Default);
      emitted := [];
    }

    /** The switch is on exactly when the draft's theme is dark. */
    function DarkModeChecked(): (r: bool)
      reads this
      ensures r <==> local.theme == Dark
    {
      local.theme == Dark
    }

    /** The sheet's `onOpenChange`. */
    method SetOpen(b: bool)
      modifies this
      ensures open == b && local == old(local) && emitted == old(emitted)
    {
      open := b;
    }

    /** The effect on a new `value` prop: the draft is overwritten. */
    method Sync(value: Settings)
      modifies this
      ensures local == value && open == old(open) && emitted == old(emitted)
    {
      local := value;
    }

    /** `update(key, v)`: only that key of the draft changes. */
    method Update(x: Setting)
      modifies this
      ensures local == WithSetting(old(local), x)
      ensures open == old(open) && emitted == old(emitted)
    {
      local := WithSetting(local, x);
    }

    /** `updateTitle(section, v)`: only that section's title changes. */
    method UpdateTitle(section: Section, v: string)
      modifies this
      ensures local == old(local).(sectionTitles := WithTitle(old(local).sectionTitles, section, v))
      ensures open == old(open) && emitted == old(emitted)
    {
      local := local.(sectionTitles := WithTitle(local.sectionTitles, section, v));
    }

    /** The dark-mode switch: `update('theme', c ? 'dark' : 'light')`. */
    method SetDarkMode(checked: bool)
      modifies this
      ensures local == WithSetting(old(local), ThemeOf(SwitchTheme(checked)))
      ensures local.theme == Dark <==> checked
      ensures open == old(open) && emitted == old(emitted)
    {
      Update(ThemeOf(SwitchTheme(checked)));
    }

    /** `apply`: the draft goes to `onChange` once, and the sheet closes. */
    method Apply()
      modifies this
      ensures emitted == old(emitted) + [old(local)]
      ensures !open && local == old(local)
    {
      emitted := emitted + [local];
      open := false;
    }

    /** The Reset button: the draft becomes the defaults; nothing is emitted and the sheet stays as it is. */
    method Reset()
      modifies this
      ensures local == Default
      ensures open == old(open) && emitted == old(emitted)
    {
      local := Default;
    }
  }

  /** Editing one title and applying hands `onChange` the old settings with only that title changed. */
  method RetitleAndApply(value: Settings, section: Section, v: string) returns (sent: Settings, open: bool)
    ensures Title(sent.sectionTitles, section) == v
    ensures forall other :: other != section ==> Title(sent.sectionTitles, other) == Title(value.sectionTitles, other)
    ensures forall k :: k != TitlesKey ==> Field(sent, k) == Field(value, k)
    ensures !open
  {
    var panel := new SiteSettingsPanel(Some(value));
    panel.SetOpen(true);
    panel.UpdateTitle(section, v);
    panel.Apply();
    sent, open := panel.emitted[0], panel.open;
  }

  /** Reset and then apply hands `onChange` the defaults, whatever the draft was. */
  method ResetThenApply(value: Settings, x: Setting) returns (sent: seq<Settings>)
    ensures sent == [Default]
  {
    var panel := new SiteSettingsPanel(Some(value));
    panel.Update(x);
    panel.Reset();
    panel.Apply();
    sent := panel.emitted;
  }

  /** A panel mounted without a `value` shows the light default: the switch is off and its caption reads Light. */
  method MountedWithoutValue() returns (checked: bool, caption: string, draft: Settings)
    ensures !checked && caption == "Light" && draft == Default
  {
    var panel := new SiteSettingsPanel(None);
    checked := panel.DarkModeChecked();
    caption := ThemeLabel(panel.local.theme);
    draft := panel.local;
  }
}
