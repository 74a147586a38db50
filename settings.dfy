/**
 * The settings page: a record of six preferences held as state, two update
 * handlers that each replace one field, and the table of sections that says
 * which keys are shown as switches and which as number inputs.
 */
module Settings {
  import opened Values

  /** A settings record: property name to value. */
  type Record = map<string, Value>

  /** The record the page starts with. */
  const Initial: Record := map[
    "notifications" := Bool(true),
    "emailAlerts" := Bool(true),
    "darkMode" := Bool(false),
    "autoBackup" := Bool(true),
    "dataRetention" := Str("30"),
    "updateFrequency" := Str("5")]

  /** `{ ...prev, [key]: !prev[key] }`. */
  function Toggled(prev: Record, key: string): (next: Record)
    ensures next.Keys == prev.Keys + {key}
    ensures next[key] == Bool(!Truthy(Get(prev, key)))
    ensures forall k :: k in prev && k != key ==> next[k] == prev[k]
  {
    prev[key := Bool(!Truthy(Get(prev, key)))]
  }

  /** `{ ...prev, [key]: value }`. */
  function Changed(prev: Record, key: string, value: string): (next: Record)
    ensures next.Keys == prev.Keys + {key}
    ensures next[key] == Str(value)
    ensures forall k :: k in prev && k != key ==> next[k] == prev[k]
  {
    prev[key := Str(value)]
  }

  /** Toggling a boolean field twice gives back the record. */
  lemma ToggleTwice(prev: Record, key: string)
    requires key in prev && prev[key].Bool?
    ensures Toggled(Toggled(prev, key), key) == prev
  {
    var once := Toggled(prev, key);
    assert once[key] == Bool(!prev[key].b);
  }

  /** Toggling a field that is not in the record adds it as `true`; a second toggle makes it `false`. */
  lemma ToggleMissing(prev: Record, key: string)
    requires key !in prev && key !in InheritedKeys
    ensures Toggled(prev, key)[key] == Bool(true)
    ensures Toggled(Toggled(prev, key), key) == prev[key := Bool(false)]
  {
  }

  /** Changing a field twice to the same value is changing it once. */
  lemma ChangeIdempotent(prev: Record, key: string, value: string)
    ensures Changed(Changed(prev, key, value), key, value) == Changed(prev, key, value)
  {
  }

  /** A change to a field the record already holds keeps its key set. */
  lemma ChangeKeepsKeys(prev: Record, key: string, value: string)
    requires key in prev
    ensures Changed(prev, key, value).Keys == prev.Keys
    ensures Toggled(prev, key).Keys == prev.Keys
  {
  }

  datatype Control = Toggle | Input

  /** One entry of a section: the record key, its label and its control. */
  datatype Setting = Setting(key: string, name: string, control: Control)

  datatype Section = Section(title: string, description: string, settings: seq<Setting>)

  /** `settingsSections`; the icons are left out. */
  const Sections: seq<Section> := [
    Section("Notifications", "Manage alert and notification preferences",
            [Setting("notifications", "Enable Notifications", Toggle),
             Setting("emailAlerts", "Email Alerts", Toggle)]),
    Section("Display", "Customize dashboard appearance",
            [Setting("darkMode", "Dark Mode", Toggle)]),
    Section("Data Management", "Configure data storage and retention",
            [Setting("autoBackup", "Automatic Backups", Toggle),
             Setting("dataRetention", "Data Retention (days)", Input)]),
    Section("System", "System-wide configuration",
            [Setting("updateFrequency", "Update Frequency (seconds)", Input)])
  ]

  /** Every setting of every section, in page order. */
  function AllSettings(sections: seq<Section>): seq<Setting>
  {
    if sections == [] then []
    else sections[0].settings + AllSettings(sections[1..])
  }

  /** The keys the page shows, in page order. */
  function Keys(settings: seq<Setting>): (keys: seq<string>)
    ensures |keys| == |settings|
    ensures forall i :: 0 <= i < |settings| ==> keys[i] == settings[i].key
  {
    seq(|settings|, i requires 0 <= i < |settings| => settings[i].key)
  }

  /** No key appears twice. */
  predicate Distinct(keys: seq<string>) {
    forall i, j :: 0 <= i < j < |keys| ==> keys[i] != keys[j]
  }

  /** Every shown key is in the record, with a boolean behind a switch and a string behind an input. */
  predicate WellTyped(settings: seq<Setting>, r: Record) {
    forall s :: s in settings ==>
      s.key in r && (s.control == Toggle ==> r[s.key].Bool?) && (s.control == Input ==> r[s.key].Str?)
  }

  /** The controls of the page, section by section. */
  lemma AllSettingsOfSections()
    ensures AllSettings(Sections) ==
      Sections[0].settings + Sections[1].settings + Sections[2].settings + Sections[3].settings
  {
    assert Sections[3..][1..] == [];
    assert AllSettings(Sections[3..]) == Sections[3].settings;
    assert Sections[2..][1..] == Sections[3..];
    assert AllSettings(Sections[2..]) == Sections[2].settings + Sections[3].settings;
    assert Sections[1..][1..] == Sections[2..];
    assert AllSettings(Sections[1..]) == Sections[1].settings + Sections[2].settings + Sections[3].settings;
  }

  /** The keys behind the page's controls, in page order. */
  const ShownKeys: seq<string> :=
    ["notifications", "emailAlerts", "darkMode", "autoBackup", "dataRetention", "updateFrequency"]

  lemma ShownKeysDistinct()
    ensures Distinct(ShownKeys)
  {
    forall i, j | 0 <= i < j < |ShownKeys| ensures ShownKeys[i] != ShownKeys[j] {
      assert ShownKeys[i][0] != ShownKeys[j][0] || ShownKeys[i][2] != ShownKeys[j][2];
    }
  }

  /** The keys of the page's controls, in page order. */
  lemma SectionKeys()
    ensures Keys(AllSettings(Sections)) == ShownKeys
  {
    AllSettingsOfSections();
  }

  /** The page shows a control for every key of the initial record and for no other key. */
  lemma ShownKeysAreInitial()
    ensures (set k | k in ShownKeys) == Initial.Keys
  {
    assert forall k :: k in ShownKeys <==>
      k == "notifications" || k == "emailAlerts" || k == "darkMode" ||
      k == "autoBackup" || k == "dataRetention" || k == "updateFrequency";
  }

  /** Every switch of the table starts on a boolean and every input on a string. */
  lemma InitialWellTyped()
    ensures WellTyped(AllSettings(Sections), Initial)
  {
    AllSettingsOfSections();
    var all := AllSettings(Sections);
    forall s | s in all
      ensures s.key in Initial && (s.control == Toggle ==> Initial[s.key].Bool?) && (s.control == Input ==> Initial[s.key].Str?)
    {
      var k :| 0 <= k < |all| && all[k] == s;
      assert k < 6;
    }
  }

  /**
   * The section table lists the six keys of the initial record, each once, and every
   * switch of the table starts on a boolean and every input on a string.
   */
  lemma SectionTable()
    ensures Keys(AllSettings(Sections)) == ShownKeys
    ensures Distinct(Keys(AllSettings(Sections)))
    ensures (set k | k in ShownKeys) == Initial.Keys
    ensures WellTyped(AllSettings(Sections), Initial)
  {
    SectionKeys();
    ShownKeysDistinct();
    ShownKeysAreInitial();
    InitialWellTyped();
  }

  /** The switches switch booleans and the inputs hold strings after any handler call a control makes. */
  lemma HandlersKeepWellTyped(settings: seq<Setting>, r: Record, key: string, value: string)
    requires WellTyped(settings, r)
    ensures (exists s :: s in settings && s.key == key && s.control == Toggle) ==> WellTyped(settings, Toggled(r, key))
    ensures (exists s :: s in settings && s.key == key && s.control == Input) ==> WellTyped(settings, Changed(r, key, value))
  {
  }

  /** The table's keys are distinct, so a toggle from one control leaves every other control as it was. */
  lemma ToggleChangesOneControl(r: Record, i: nat, j: nat)
    requires i < 6 && j < 6 && i != j
    ensures Get(Toggled(r, ShownKeys[i]), ShownKeys[j]) == Get(r, ShownKeys[j])
  {
    ShownKeysDistinct();
  }

  /** The state of the settings page. */
  class SettingsPage {
    var settings: Record

    constructor ()
      ensures settings == Initial
    {
      settings := Initial;
    }

    /** `handleToggle(key)`. */
    method HandleToggle(key: string)
      modifies this
      ensures settings == Toggled(old(settings), key)
    {
      settings := Toggled(settings, key);
    }

    /** `handleChange(key, value)`. */
    method HandleChange(key: string, value: string)
      modifies this
      ensures settings == Changed(old(settings), key, value)
    {
      settings := Changed(settings, key, value);
    }

    /** The value a control shows, `settings[setting.key]`. */
    function Shown(key: string): Value
      reads this
    {
      Get(settings, key)
    }
  }
}
