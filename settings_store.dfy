/**
 * The settings store: the ini file holding the `[Settings]` section with
 * `interval_minutes`, `cup_name` and `cup_amount_ml`. A file is either
 * absent or a map from section names to that section's key/value pairs.
 */
module SettingsStore {
  import opened Wrappers
  import Decimal

  type Section = map<string, string>

  datatype IniFile = Absent | Present(sections: map<string, Section>)

  const SETTINGS_SECTION := "Settings"
  const INTERVAL_KEY := "interval_minutes"
  const CUP_NAME_KEY := "cup_name"
  const CUP_AMOUNT_KEY := "cup_amount_ml"
  const DEFAULT_INTERVAL := 30
  const DEFAULT_CUP_NAME := "cup"

  /** The section `load_settings` writes when there is no settings file. */
  function DefaultSection(): Section {
    map[INTERVAL_KEY := "30", CUP_NAME_KEY := DEFAULT_CUP_NAME, CUP_AMOUNT_KEY := "250"]
  }

  /** What `config.read` yields: the file's sections, or none when the file is absent. */
  function Sections(file: IniFile): map<string, Section> {
    if file.Present? then file.sections else map[]
  }

  /** The file after `load_settings`' first step: an absent file is written with the defaults. */
  function CreateIfAbsent(file: IniFile): IniFile {
    if file.Absent? then Present(map[SETTINGS_SECTION := DefaultSection()]) else file
  }

  /** `config.get("Settings", key, fallback=...)`: the stored value, or the fallback. */
  function Lookup(sections: map<string, Section>, key: string): Option<string> {
    if SETTINGS_SECTION in sections && key in sections[SETTINGS_SECTION]
    then Some(sections[SETTINGS_SECTION][key])
    else None
  }

  /** The interval `load_settings` reads: the stored text through `int()`, 30 when there is none. */
  function IntervalSetting(sections: map<string, Section>): Option<int> {
    match Lookup(sections, INTERVAL_KEY)
    case Some(text) => Decimal.ParseInt(text)
    case None => Some(DEFAULT_INTERVAL)
  }

  /** The unit label `load_settings` reads: the stored text, "cup" when there is none. */
  function CupNameSetting(sections: map<string, Section>): string {
    Lookup(sections, CUP_NAME_KEY).GetOr(DEFAULT_CUP_NAME)
  }

  /**
   * The file `save_settings` writes: the read sections with only
   * `interval_minutes` of `[Settings]` replaced by `str(minutes)`. Without a
   * `[Settings]` section the assignment raises KeyError and nothing is written (None).
   */
  function SaveInterval(file: IniFile, minutes: int): Option<IniFile> {
    var sections := Sections(file);
    if SETTINGS_SECTION in sections then
      var section := sections[SETTINGS_SECTION][INTERVAL_KEY := Decimal.IntToString(minutes)];
      Some(Present(sections[SETTINGS_SECTION := section]))
    else
      None
  }

  /** A run with no settings file starts from the defaults: 30 minutes and "cup". */
  lemma DefaultsOnFirstRun()
    ensures CreateIfAbsent(Absent) == Present(map[SETTINGS_SECTION := DefaultSection()])
    ensures IntervalSetting(Sections(CreateIfAbsent(Absent))) == Some(DEFAULT_INTERVAL)
    ensures CupNameSetting(Sections(CreateIfAbsent(Absent))) == DEFAULT_CUP_NAME
  {
    Decimal.ParseIntToString(30);
    assert Decimal.IntToString(30) == "30";
  }

  /** An existing settings file is read as it is, never overwritten by the defaults. */
  lemma ExistingFileKept(file: IniFile)
    requires file.Present?
    ensures CreateIfAbsent(file) == file
  {
  }

  /**
   * Each key falls back on its own: a missing `interval_minutes` reads as 30
   * and a missing `cup_name` as "cup", whatever else the section holds, and
   * both do when the whole section is missing.
   */
  lemma MissingKeysFallBack(sections: map<string, Section>)
    ensures (SETTINGS_SECTION !in sections || INTERVAL_KEY !in sections[SETTINGS_SECTION]) ==>
      IntervalSetting(sections) == Some(DEFAULT_INTERVAL)
    ensures (SETTINGS_SECTION !in sections || CUP_NAME_KEY !in sections[SETTINGS_SECTION]) ==>
      CupNameSetting(sections) == DEFAULT_CUP_NAME
  {
  }

  /**
   * Saving succeeds exactly when the read file has `[Settings]`; it then
   * changes only `interval_minutes` and keeps every other key and section.
   */
  lemma SaveIntervalMerges(file: IniFile, minutes: int)
    ensures SaveInterval(file, minutes).Some? <==> SETTINGS_SECTION in Sections(file)
    ensures SaveInterval(file, minutes).Some? ==>
      var after := SaveInterval(file, minutes).value.sections;
      var before := Sections(file);
      && after.Keys == before.Keys
      && (forall name :: name in before && name != SETTINGS_SECTION ==> after[name] == before[name])
      && after[SETTINGS_SECTION].Keys == before[SETTINGS_SECTION].Keys + {INTERVAL_KEY}
      && (forall key :: key in before[SETTINGS_SECTION] && key != INTERVAL_KEY ==>
            after[SETTINGS_SECTION][key] == before[SETTINGS_SECTION][key])
      && after[SETTINGS_SECTION][INTERVAL_KEY] == Decimal.IntToString(minutes)
  {
  }

  /**
   * Round trip: after a save, loading gives back the saved interval, and the
   * unit label and `cup_amount_ml` are what they were.
   */
  lemma SaveThenLoad(file: IniFile, minutes: int)
    requires SETTINGS_SECTION in Sections(file)
    ensures SaveInterval(file, minutes).Some?
    ensures IntervalSetting(SaveInterval(file, minutes).value.sections) == Some(minutes)
    ensures CupNameSetting(SaveInterval(file, minutes).value.sections) == CupNameSetting(Sections(file))
    ensures Lookup(SaveInterval(file, minutes).value.sections, CUP_AMOUNT_KEY) == Lookup(Sections(file), CUP_AMOUNT_KEY)
  {
    Decimal.ParseIntToString(minutes);
  }

  /** Saving the same interval twice writes the same file as saving it once. */
  lemma SaveIntervalIdempotent(file: IniFile, minutes: int)
    requires SaveInterval(file, minutes).Some?
    ensures SaveInterval(SaveInterval(file, minutes).value, minutes) == SaveInterval(file, minutes)
  {
    var once := SaveInterval(file, minutes).value.sections;
    var section := once[SETTINGS_SECTION];
    assert section[INTERVAL_KEY := Decimal.IntToString(minutes)] == section;
    assert once[SETTINGS_SECTION := section] == once;
  }
}
