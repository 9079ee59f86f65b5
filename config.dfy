/** The settings store: the version 1 to version 2 schema migration and the
    normalisation `load` applies to the decoded settings document. */
module Config {
  import opened PyJson

  const NewKey := "min_planet_value_100k"
  /** The key older builds wrote, with a double underscore. */
  const LegacyKey := "min_planet_value__100k"
  const SchemaKey := "schema_version"
  const SchemaVersion := 2

  /** `AppConfig`: the journal directory is kept as decoded. */
  datatype AppConfig = AppConfig(journalDir: Json, minPlanetValue100k: int, exoHighValueM: int)

  const DefaultConfig := AppConfig(JNull, 1, 2)

  /** `_migrate_settings` either returns the migrated dict and whether it
      changed, or raises (a `schema_version` that `int()` rejects). */
  datatype Migration = Migrated(data: Obj, changed: bool) | MigrationFailed

  /** `int(legacy or 0) * 10`, and 10 when `int()` rejects the legacy value. */
  function LegacyValue(v: Json): (r: int)
    ensures PyInt(v).Some? && Truthy(v) ==> r == PyInt(v).value * 10
    ensures Truthy(v) && PyInt(v).None? ==> r == 10
    ensures !Truthy(v) ==> r == 0
  {
    match PyInt(Or(v, JInt(0)))
    case None => 10
    case Some(n) => n * 10
  }

  /** `int(data.get("schema_version") or 1)`; None when that raises. */
  function StoredVersion(data: Obj): Option<int> {
    PyInt(Or(Get(data, SchemaKey), JInt(1)))
  }

  function Migrate(data: Obj, fromVersion: int): (r: Migration)
    ensures fromVersion >= 2 ==> r == Migrated(data, false)
    ensures r.MigrationFailed? <==> fromVersion < 2 && Has(data, SchemaKey) && StoredVersion(data).None?
    ensures r.Migrated? && Has(data, NewKey) ==> Get(r.data, NewKey) == Get(data, NewKey)
    ensures r.Migrated? && fromVersion < 2 && !Has(data, NewKey) && Has(data, LegacyKey) ==>
      r.changed && Get(r.data, NewKey) == JInt(LegacyValue(Get(data, LegacyKey)))
    ensures r.Migrated? && fromVersion < 2 ==> StoredVersion(r.data) == Some(SchemaVersion) && Has(r.data, SchemaKey)
    ensures r.Migrated? && fromVersion < 2 && (!Has(data, SchemaKey) || StoredVersion(data) != Some(SchemaVersion)) ==>
      r.changed && Get(r.data, SchemaKey) == JInt(SchemaVersion)
    ensures r.Migrated? && fromVersion < 2 && Has(data, SchemaKey) && StoredVersion(data) == Some(SchemaVersion) ==>
      Get(r.data, SchemaKey) == Get(data, SchemaKey)
    ensures r.Migrated? && r.changed ==> fromVersion < 2
    ensures r.Migrated? ==> forall k :: k != NewKey && k != SchemaKey ==>
      (Has(r.data, k) <==> Has(data, k)) && Get(r.data, k) == Get(data, k)
  {
    if fromVersion >= 2 then Migrated(data, false)
    else
      var legacy := !Has(data, NewKey) && Has(data, LegacyKey);
      var d1 := if legacy then Put(data, NewKey, JInt(LegacyValue(Get(data, LegacyKey)))) else data;
      assert Get(d1, SchemaKey) == Get(data, SchemaKey) && (Has(d1, SchemaKey) <==> Has(data, SchemaKey));
      if !Has(d1, SchemaKey) then
        Migrated(Put(d1, SchemaKey, JInt(SchemaVersion)), true)
      else
        match StoredVersion(d1)
        case None => MigrationFailed
        case Some(v) =>
          if v != SchemaVersion then Migrated(Put(d1, SchemaKey, JInt(SchemaVersion)), true)
          else Migrated(d1, legacy)
  }

  /** After a successful migration the stored version reads back as 2, so
      loading the written file again migrates nothing. */
  lemma MigrateSettles(data: Obj, fromVersion: int)
    requires Migrate(data, fromVersion).Migrated?
    requires fromVersion < 2
    ensures var d := Migrate(data, fromVersion).data;
      LoadedVersion(d) == Some(SchemaVersion) && Migrate(d, SchemaVersion) == Migrated(d, false)
  {
    var d := Migrate(data, fromVersion).data;
    assert GetOr(d, SchemaKey, JInt(1)) == Get(d, SchemaKey);
  }

  /** `int(data.get("schema_version", 1) or 1)` as `load` reads it. */
  function LoadedVersion(data: Obj): Option<int> {
    PyInt(Or(GetOr(data, SchemaKey, JInt(1)), JInt(1)))
  }

  /** The settings file `load` reads: the canonical path, else the legacy
      path; the text is either not valid JSON or a decoded value. */
  datatype SettingsFile = NoFile | Unparsable | Parsed(doc: Json)

  /** The threshold `load` derives from `min_planet_value_100k`. */
  function MinValue100k(v: Json): (r: int)
    ensures r >= 0
    ensures !(v.JInt? || v.JReal? || v.JBool?) ==> r == 1
    ensures v.JInt? ==> r == if v.i < 0 then 0 else v.i
  {
    if v.JInt? || v.JReal? || v.JBool? then
      var n := PyInt(Or(v, JInt(0))).value;
      if n < 0 then 0 else n
    else 1
  }

  /** `ConfigStore.load` after the file has been read; every exception it
      catches gives the defaults. */
  function Load(f: SettingsFile): (r: AppConfig)
    ensures !f.Parsed? || !f.doc.JObj? ==> r == DefaultConfig
    ensures r.minPlanetValue100k >= 0
    ensures f.Parsed? && f.doc.JObj? && r != DefaultConfig ==>
      LoadedVersion(f.doc.members).Some? && Migrate(f.doc.members, LoadedVersion(f.doc.members).value).Migrated?
  {
    if !f.Parsed? || !f.doc.JObj? then DefaultConfig
    else
      var data := f.doc.members;
      match LoadedVersion(data)
      case None => DefaultConfig
      case Some(version) =>
        match Migrate(data, version)
        case MigrationFailed => DefaultConfig
        case Migrated(d, _) =>
          match PyInt(Or(GetOr(d, "exo_high_value_m", JInt(2)), JInt(2)))
          case None => DefaultConfig
          case Some(exo) => AppConfig(Get(d, "journal_dir"), MinValue100k(Get(d, NewKey)), exo)
  }

  /** A numeric threshold is kept (negatives clamped to 0), a non-numeric one is 1. */
  lemma LoadThreshold(data: Obj)
    requires Has(data, SchemaKey) && Get(data, SchemaKey) == JInt(2)
    requires PyInt(Or(GetOr(data, "exo_high_value_m", JInt(2)), JInt(2))).Some?
    ensures var r := Load(Parsed(JObj(data)));
      r.minPlanetValue100k == MinValue100k(Get(data, NewKey))
      && (Get(data, NewKey).JStr? ==> r.minPlanetValue100k == 1)
  {
    assert GetOr(data, SchemaKey, JInt(1)) == JInt(2);
  }

  /** A missing or zero `exo_high_value_m` loads as 2. */
  lemma LoadExoDefault(data: Obj)
    requires Has(data, SchemaKey) && Get(data, SchemaKey) == JInt(2)
    requires !Has(data, "exo_high_value_m") || Get(data, "exo_high_value_m") == JInt(0)
    ensures Load(Parsed(JObj(data))).exoHighValueM == 2
  {
    assert GetOr(data, SchemaKey, JInt(1)) == JInt(2);
  }
}
