/** The player's settings: six defaults, a saved blob merged over them when
    the app starts, single-key updates, and the base font size that the text
    size setting selects. */
module Settings {

  /** A JSON value a setting can hold. */
  datatype Value = BoolVal(b: bool) | IntVal(i: int) | StrVal(s: string)

  type SettingsMap = map<string, Value>

  const DefaultSettings: SettingsMap := map[
    "soundEnabled" := BoolVal(true),
    "gridSize" := IntVal(6),
    "difficulty" := StrVal("easy"),
    "reduceMotion" := BoolVal(false),
    "textSize" := StrVal("medium"),
    "animationSpeed" := StrVal("slow")
  ]

  /** What reading the saved settings yields: nothing (no entry, or an empty
      one), text that is not JSON, or the fields of the parsed object. */
  datatype SavedBlob = Missing | Unparseable | Parsed(fields: SettingsMap)

  /** `{ ...defaultSettings, ...saved }`. */
  function MergeOverDefaults(saved: SettingsMap): (r: SettingsMap)
    ensures r.Keys == DefaultSettings.Keys + saved.Keys
    ensures forall k :: k in saved ==> r[k] == saved[k]
    ensures forall k :: k in DefaultSettings && k !in saved ==> r[k] == DefaultSettings[k]
  {
    DefaultSettings + saved
  }

  /** The settings the provider starts with. */
  function LoadSettings(blob: SavedBlob): (r: SettingsMap)
    ensures DefaultSettings.Keys <= r.Keys
    ensures blob.Parsed? ==> r == MergeOverDefaults(blob.fields)
    ensures !blob.Parsed? ==> r == DefaultSettings
  {
    match blob
    case Parsed(fields) => MergeOverDefaults(fields)
    case _ => DefaultSettings
  }

  /** `updateSetting(key, value)`: only `key` changes. */
  function UpdateSetting(settings: SettingsMap, key: string, value: Value): (r: SettingsMap)
    ensures r.Keys == settings.Keys + {key}
    ensures key in r && r[key] == value
    ensures forall k :: k in settings && k != key ==> r[k] == settings[k]
  {
    settings[key := value]
  }

  /** What is written to storage after every change: the whole object. */
  function Persist(settings: SettingsMap): SavedBlob {
    Parsed(settings)
  }

  /** Settings that hold every default key come back unchanged after being
      written and read again. */
  lemma ReloadRestores(settings: SettingsMap)
    requires DefaultSettings.Keys <= settings.Keys
    ensures LoadSettings(Persist(settings)) == settings
  {
    var r := LoadSettings(Persist(settings));
    assert r.Keys == settings.Keys;
    assert forall k :: k in r ==> r[k] == settings[k];
  }

  /** The settings after `updateSetting(keys[i], values[i])` for each i in
      turn. */
  function ApplyUpdates(settings: SettingsMap, keys: seq<string>, values: seq<Value>): SettingsMap
    requires |keys| == |values|
    decreases |keys|
  {
    if keys == [] then settings
    else ApplyUpdates(UpdateSetting(settings, keys[0], values[0]), keys[1..], values[1..])
  }

  lemma {:induction false} UpdatesKeepDefaults(settings: SettingsMap, keys: seq<string>, values: seq<Value>)
    requires |keys| == |values|
    ensures settings.Keys <= ApplyUpdates(settings, keys, values).Keys
    decreases |keys|
  {
    if keys != [] {
      UpdatesKeepDefaults(UpdateSetting(settings, keys[0], values[0]), keys[1..], values[1..]);
    }
  }

  /** Loaded settings, and settings updated any number of times after,
      survive a reload. */
  lemma {:induction false} UpdatesSurviveReload(blob: SavedBlob, keys: seq<string>, values: seq<Value>)
    requires |keys| == |values|
    ensures var s := ApplyUpdates(LoadSettings(blob), keys, values);
      LoadSettings(Persist(s)) == s
  {
    UpdatesKeepDefaults(LoadSettings(blob), keys, values);
    ReloadRestores(ApplyUpdates(LoadSettings(blob), keys, values));
  }

  /** The base font size in pixels for the text size setting: small 14,
      medium 16, large 20, anything else 16. */
  function BaseFontSize(settings: SettingsMap): (px: int)
    ensures px == 14 || px == 16 || px == 20
    ensures px == 14 <==> "textSize" in settings && settings["textSize"] == StrVal("small")
    ensures px == 20 <==> "textSize" in settings && settings["textSize"] == StrVal("large")
  {
    if "textSize" !in settings then 16
    else match settings["textSize"]
      case StrVal(s) =>
        if s == "small" then 14 else if s == "medium" then 16 else if s == "large" then 20 else 16
      case _ => 16
  }

  lemma DefaultFontSize()
    ensures BaseFontSize(DefaultSettings) == 16
  {
    assert DefaultSettings["textSize"] == StrVal("medium");
  }
}
