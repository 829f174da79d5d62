/**
 * The admin settings screen: three records of named settings (notifications,
 * system, security), a per-field toggle, and an edit/save path that records
 * the edited field as "section.setting" and writes the typed text back as a
 * number when it is numeric.
 */
module Settings {
  import opened Strings

  /** A setting's value as the screen can hold it; `Undefined` is what a missing key reads as. */
  datatype Value = Bool(b: bool) | Num(n: nat) | Text(s: string) | Undefined

  /** JavaScript truthiness of a value, which `!` negates. */
  predicate Truthy(v: Value) {
    match v
    case Bool(b) => b
    case Num(n) => n != 0
    case Text(s) => s != ""
    case Undefined => false
  }

  /** Reading a key of a record; an absent key reads as undefined. */
  function Lookup(m: map<string, Value>, key: string): Value {
    if key in m then m[key] else Undefined
  }

  /** The three records. */
  datatype Sections = Sections(notifications: map<string, Value>, system: map<string, Value>, security: map<string, Value>)

  const InitialSections := Sections(
    map["emailNotifications" := Bool(true), "smsNotifications" := Bool(false), "pushNotifications" := Bool(true),
        "deliveryAlerts" := Bool(true), "bookingConfirmations" := Bool(true)],
    map["autoStatusUpdate" := Bool(true), "packageRetentionDays" := Num(7), "maxPackageWeight" := Num(25),
        "requireReceiverConfirmation" := Bool(true), "allowCancellation" := Bool(true)],
    map["twoFactorAuth" := Bool(false), "sessionTimeout" := Num(30), "passwordExpiry" := Num(90),
        "loginAttempts" := Num(3)])

  predicate IsSection(name: string) {
    name == "notifications" || name == "system" || name == "security"
  }

  /** The value of `key` in the record called `section`; unknown sections read as undefined. */
  function Get(s: Sections, section: string, key: string): Value {
    if section == "notifications" then Lookup(s.notifications, key)
    else if section == "system" then Lookup(s.system, key)
    else if section == "security" then Lookup(s.security, key)
    else Undefined
  }

  /** The keys present in the record called `section`. */
  function Keys(s: Sections, section: string): set<string> {
    if section == "notifications" then s.notifications.Keys
    else if section == "system" then s.system.Keys
    else if section == "security" then s.security.Keys
    else {}
  }

  /** A record with `key` set to `v` (the object spread with one computed key). */
  function Put(m: map<string, Value>, key: string, v: Value): (r: map<string, Value>)
    ensures r.Keys == m.Keys + {key}
    ensures Lookup(r, key) == v
    ensures forall k :: k != key ==> Lookup(r, k) == Lookup(m, k)
  {
    m[key := v]
  }

  /** `handleToggle`: negate the named field of the named section, by truthiness. */
  function Toggle(s: Sections, section: string, setting: string): (r: Sections)
    ensures IsSection(section) ==> Get(r, section, setting) == Bool(!Truthy(Get(s, section, setting)))
    ensures IsSection(section) ==> Keys(r, section) == Keys(s, section) + {setting}
    ensures forall sec, k :: sec != section || k != setting ==> Get(r, sec, k) == Get(s, sec, k)
    ensures forall sec :: sec != section ==> Keys(r, sec) == Keys(s, sec)
    ensures !IsSection(section) ==> r == s
  {
    var flipped := (m: map<string, Value>) => Put(m, setting, Bool(!Truthy(Lookup(m, setting))));
    if section == "notifications" then s.(notifications := flipped(s.notifications))
    else if section == "system" then s.(system := flipped(s.system))
    else if section == "security" then s.(security := flipped(s.security))
    else s
  }

  /** Toggling a boolean field twice restores the settings. */
  lemma ToggleTwice(s: Sections, section: string, setting: string)
    requires Get(s, section, setting).Bool?
    ensures Toggle(Toggle(s, section, setting), section, setting) == s
  {
    var v := Get(s, section, setting);
    if section == "notifications" {
      assert s.notifications[setting := v] == s.notifications;
    } else if section == "system" {
      assert s.system[setting := v] == s.system;
    } else {
      assert s.security[setting := v] == s.security;
    }
  }

  /** `value.toString()` for the values the screen edits; undefined has no such method. */
  function ToText(v: Value): (t: string)
    requires v != Undefined
  {
    match v
    case Bool(b) => if b then "true" else "false"
    case Num(n) => NatToString(n)
    case Text(s) => s
  }

  /** The key recorded by `handleEditSetting`. */
  function EditKey(section: string, setting: string): string {
    section + "." + setting
  }

  /** The part of `s` before its first '.' (all of `s` when it has none). */
  function FirstField(s: string): (r: string)
    ensures '.' !in r
    ensures |r| <= |s| && r == s[..|r|]
    ensures |r| < |s| ==> s[|r|] == '.'
  {
    if |s| == 0 || s[0] == '.' then "" else [s[0]] + FirstField(s[1..])
  }

  /** The first element of the split on '.'. */
  function SectionOf(editing: string): string {
    FirstField(editing)
  }

  /** The second element of the split on '.', or the key "undefined" when there is no '.'. */
  function SettingOf(editing: string): string {
    var first := FirstField(editing);
    if |first| < |editing| then FirstField(editing[|first| + 1..]) else "undefined"
  }

  lemma {:induction false} FirstFieldOfJoin(a: string, b: string)
    requires '.' !in a
    ensures FirstField(a + "." + b) == a
  {
    if a != [] {
      assert (a + "." + b)[1..] == a[1..] + "." + b;
      FirstFieldOfJoin(a[1..], b);
    }
  }

  /** Splitting an edit key on '.' gives back the section and the setting, when neither holds a '.'. */
  lemma SplitEditKey(section: string, setting: string)
    requires '.' !in section && '.' !in setting
    ensures SectionOf(EditKey(section, setting)) == section
    ensures SettingOf(EditKey(section, setting)) == setting
  {
    FirstFieldOfJoin(section, setting);
    assert EditKey(section, setting)[|section| + 1..] == setting;
  }

  /** The saved value: the number when the text is numeric (the empty text reads as 0), the raw text otherwise. */
  function ParseValue(text: string): (v: Value)
    ensures v.Num? <==> AllDigits(text)
    ensures !AllDigits(text) ==> v == Text(text)
    ensures text == "" ==> v == Num(0)
  {
    if AllDigits(text) then Num(ParseDigits(text)) else Text(text)
  }

  /** A number turned into text by the edit dialog parses back to the same number. */
  lemma ParseNumberText(n: nat)
    ensures ParseValue(ToText(Num(n))) == Num(n)
  {
    ParseNatToString(n);
  }

  /** Leading zeros are ignored: "007" saves as 7. */
  lemma ParseValueLeadingZero(t: string)
    requires AllDigits(t)
    ensures ParseValue("0" + t) == ParseValue(t)
  {
    ParseLeadingZero(t);
  }

  /** `handleSaveSetting`: write the parsed temporary value under the edited key of 'system' or 'security'. */
  function Save(s: Sections, editing: string, temp: map<string, string>): (r: Sections)
    ensures r.notifications == s.notifications
    ensures SectionOf(editing) in {"system", "security"} ==>
      Get(r, SectionOf(editing), SettingOf(editing)) ==
        (if SettingOf(editing) in temp then ParseValue(temp[SettingOf(editing)]) else Undefined)
    ensures forall sec, k :: sec != SectionOf(editing) || k != SettingOf(editing) ==> Get(r, sec, k) == Get(s, sec, k)
    ensures SectionOf(editing) !in {"system", "security"} ==> r == s
  {
    var section := SectionOf(editing);
    var setting := SettingOf(editing);
    var value := if setting in temp then ParseValue(temp[setting]) else Undefined;
    if section == "system" then s.(system := Put(s.system, setting, value))
    else if section == "security" then s.(security := Put(s.security, setting, value))
    else s
  }

  /** Editing a numeric setting and saving it without typing leaves the settings as they were. */
  lemma EditSaveRoundTrip(s: Sections, section: string, setting: string, n: nat)
    requires section == "system" || section == "security"
    requires '.' !in setting
    requires Get(s, section, setting) == Num(n)
    ensures Save(s, EditKey(section, setting), map[setting := ToText(Num(n))]) == s
  {
    SplitEditKey(section, setting);
    ParseNumberText(n);
    if section == "system" {
      assert s.system[setting := Num(n)] == s.system;
    } else {
      assert s.security[setting := Num(n)] == s.security;
    }
  }

  /** Editing a field, typing `text` and saving stores the parsed text in exactly that field. */
  lemma EditTypeSave(s: Sections, section: string, setting: string, current: Value, text: string)
    requires section == "system" || section == "security"
    requires '.' !in setting && current != Undefined
    ensures var temp := map[setting := ToText(current)][SettingOf(EditKey(section, setting)) := text];
            var r := Save(s, EditKey(section, setting), temp);
            Get(r, section, setting) == ParseValue(text) &&
            forall sec, k :: sec != section || k != setting ==> Get(r, sec, k) == Get(s, sec, k)
  {
    SplitEditKey(section, setting);
  }

  /** Saving when the edit key names the notifications section changes nothing. */
  lemma SaveIgnoresNotifications(s: Sections, setting: string, temp: map<string, string>)
    requires '.' !in setting
    ensures Save(s, EditKey("notifications", setting), temp) == s
  {
    SplitEditKey("notifications", setting);
  }

  /** The screen's state. */
  class SettingsScreen {
    var notificationSettings: map<string, Value>
    var systemSettings: map<string, Value>
    var securitySettings: map<string, Value>
    var editingSection: string
    var tempSettings: map<string, string>

    function State(): Sections
      reads this
    {
      Sections(notificationSettings, systemSettings, securitySettings)
    }

    constructor ()
      ensures State() == InitialSections
      ensures editingSection == "" && tempSettings == map[]
    {
      notificationSettings := InitialSections.notifications;
      systemSettings := InitialSections.system;
      securitySettings := InitialSections.security;
      editingSection := "";
      tempSettings := map[];
    }

    method HandleToggle(section: string, setting: string)
      modifies this
      ensures State() == Toggle(old(State()), section, setting)
      ensures editingSection == old(editingSection) && tempSettings == old(tempSettings)
    {
      if section == "notifications" {
        notificationSettings := notificationSettings[setting := Bool(!Truthy(Lookup(notificationSettings, setting)))];
      } else if section == "system" {
        systemSettings := systemSettings[setting := Bool(!Truthy(Lookup(systemSettings, setting)))];
      } else if section == "security" {
        securitySettings := securitySettings[setting := Bool(!Truthy(Lookup(securitySettings, setting)))];
      }
    }

    method HandleEditSetting(section: string, setting: string, currentValue: Value)
      requires currentValue != Undefined
      modifies this
      ensures editingSection == EditKey(section, setting)
      ensures tempSettings == map[setting := ToText(currentValue)]
      ensures State() == old(State())
    {
      editingSection := section + "." + setting;
      tempSettings := map[setting := ToText(currentValue)];
    }

    /** Typing in the edit dialog writes the text under the edited setting's key. */
    method ChangeTempText(text: string)
      modifies this
      ensures tempSettings == old(tempSettings)[SettingOf(editingSection) := text]
      ensures editingSection == old(editingSection) && State() == old(State())
    {
      tempSettings := tempSettings[SettingOf(editingSection) := text];
    }

    method HandleSaveSetting()
      modifies this
      ensures State() == Save(old(State()), old(editingSection), old(tempSettings))
      ensures editingSection == old(editingSection) && tempSettings == old(tempSettings)
    {
      var section := SectionOf(editingSection);
      var setting := SettingOf(editingSection);
      var value := if setting in tempSettings then ParseValue(tempSettings[setting]) else Undefined;
      if section == "system" {
        systemSettings := systemSettings[setting := value];
      } else if section == "security" {
        securitySettings := securitySettings[setting := value];
      }
    }
  }
}
