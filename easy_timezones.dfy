/**
 * The package module of easy_timezones: reading the GeoIP settings, loading the
 * geolocation readers into the module-level state, and the lookup functions.
 *
 * The Django settings, the file system and the contents of the database files
 * are inputs (`Settings`, `GeoFiles`); the module globals `db_loaded`, `db` and
 * `db_v6` are the fields of a `GeoIpState` object.
 */
module EasyTimezones {
  import opened Wrappers

  // ------------------------------------------------------------------ settings

  /** The Django settings read by `load_db_settings`; `None` is a setting that is not defined. */
  datatype Settings = Settings(
    geoipVersion: Option<int>,       // GEOIP_VERSION
    geoipDatabase: Option<string>,   // GEOIP_DATABASE
    geoipv6Database: Option<string>) // GEOIPV6_DATABASE

  /** The schema-2-only operations, named in their `ImproperlyConfigured` message. */
  datatype Operation = CountryLookup | CityLookup | GeneralLookup

  /** Why `ImproperlyConfigured` was raised: one case per raise site. */
  datatype ConfigProblem =
    | UnsupportedVersion
    | DatabaseNotDefined
    | DatabaseMissing(path: string)   // the message names the missing primary file
    | DatabaseV6NotDefined
    | DatabaseV6Missing               // the message names no file
    | VersionTwoRequired(op: Operation)

  datatype Error =
    | ImproperlyConfigured(problem: ConfigProblem)
      /** A reader method called on `None`, or on a reader that has no such method. */
    | AttributeError

  /** The triple `load_db_settings` returns: (GEOIP_DATABASE, GEOIPV6_DATABASE, GEOIP_VERSION). */
  datatype DbSettings = DbSettings(database: string, databaseV6: string, version: int)

  const GeoipDefaultName := "GeoLiteCity.dat"
  const Geoipv6DefaultName := "GeoLiteCityv6.dat"
  const Geoip2DefaultName := "GeoLite2-City.mmdb"

  /** A database file shipped next to the package (`Path(__file__).parent / name`). */
  function DefaultDatabase(pkgDir: string, name: string): (path: string)
    ensures path != ""   // a `Path` object is always truthy
    ensures |path| > |name| && path[|path| - |name|..] == name
  {
    pkgDir + "/" + name
  }

  /** `getattr(settings, 'GEOIP_VERSION', 1)` */
  function Version(s: Settings): int {
    s.geoipVersion.GetOr(1)
  }

  /** GEOIP_DATABASE, defaulting by version to the legacy or the GeoIP2 city file. */
  function EffectiveDatabase(s: Settings, pkgDir: string): string {
    s.geoipDatabase.GetOr(
      DefaultDatabase(pkgDir, if Version(s) == 1 then GeoipDefaultName else Geoip2DefaultName))
  }

  /** GEOIPV6_DATABASE, defaulting to the legacy v6 city file. */
  function EffectiveDatabaseV6(s: Settings, pkgDir: string): string {
    s.geoipv6Database.GetOr(DefaultDatabase(pkgDir, Geoipv6DefaultName))
  }

  /**
   * A triple the readers can be opened from: a supported version, a non-empty
   * existing primary file, and for version 1 a non-empty existing v6 file.
   */
  predicate Usable(t: DbSettings, pathExists: string -> bool) {
    && t.version in {1, 2}
    && t.database != "" && pathExists(t.database)
    && (t.version == 1 ==> t.databaseV6 != "" && pathExists(t.databaseV6))
  }

  /** `load_db_settings()`: each failed check raises `ImproperlyConfigured`. */
  function LoadDbSettings(s: Settings, pkgDir: string, pathExists: string -> bool): (r: Result<DbSettings, Error>)
    ensures r.Ok? ==> Usable(r.value, pathExists)
    ensures r.Ok? ==> r.value == DbSettings(EffectiveDatabase(s, pkgDir), EffectiveDatabaseV6(s, pkgDir), Version(s))
    ensures r == Err(ImproperlyConfigured(UnsupportedVersion)) <==> Version(s) !in {1, 2}
  {
    var version := Version(s);
    if version !in {1, 2} then
      Err(ImproperlyConfigured(UnsupportedVersion))
    else
      var database := EffectiveDatabase(s, pkgDir);
      if database == "" then
        Err(ImproperlyConfigured(DatabaseNotDefined))
      else if !pathExists(database) then
        Err(ImproperlyConfigured(DatabaseMissing(database)))
      else
        var databaseV6 := EffectiveDatabaseV6(s, pkgDir);
        if version == 1 && databaseV6 == "" then
          Err(ImproperlyConfigured(DatabaseV6NotDefined))
        else if version == 1 && !pathExists(databaseV6) then
          Err(ImproperlyConfigured(DatabaseV6Missing))
        else
          Ok(DbSettings(database, databaseV6, version))
  }

  /** The settings succeed exactly when their effective triple is usable. */
  lemma LoadDbSettingsSucceedsIffUsable(s: Settings, pkgDir: string, pathExists: string -> bool)
    ensures LoadDbSettings(s, pkgDir, pathExists).Ok?
        <==> Usable(DbSettings(EffectiveDatabase(s, pkgDir), EffectiveDatabaseV6(s, pkgDir), Version(s)), pathExists)
  {
  }

  /** An unset version is version 1, whose primary default is the legacy city file. */
  lemma DefaultsWhenUnset(pkgDir: string, pathExists: string -> bool)
    ensures var r := LoadDbSettings(Settings(None, None, None), pkgDir, pathExists);
      r.Ok? ==> r.value == DbSettings(DefaultDatabase(pkgDir, GeoipDefaultName),
                                      DefaultDatabase(pkgDir, Geoipv6DefaultName), 1)
    ensures var r := LoadDbSettings(Settings(Some(2), None, None), pkgDir, pathExists);
      r.Ok? ==> r.value.database == DefaultDatabase(pkgDir, Geoip2DefaultName)
  {
  }

  /** An unsupported version is reported whatever the paths are and whatever is on disk. */
  lemma VersionCheckedBeforePaths(s: Settings, t: Settings, pkgDir: string, pkgDir': string,
                                  pathExists: string -> bool, pathExists': string -> bool)
    requires Version(s) !in {1, 2} && t.geoipVersion == s.geoipVersion
    ensures LoadDbSettings(s, pkgDir, pathExists) == LoadDbSettings(t, pkgDir', pathExists')
  {
  }

  /** An empty or missing primary file is reported before the v6 setting is looked at. */
  lemma PrimaryCheckedBeforeV6(s: Settings, pkgDir: string, pathExists: string -> bool, v6: Option<string>)
    requires Version(s) in {1, 2}
    requires EffectiveDatabase(s, pkgDir) == "" || !pathExists(EffectiveDatabase(s, pkgDir))
    ensures LoadDbSettings(s.(geoipv6Database := v6), pkgDir, pathExists) == LoadDbSettings(s, pkgDir, pathExists)
    ensures LoadDbSettings(s, pkgDir, pathExists)
         == Err(ImproperlyConfigured(
              if EffectiveDatabase(s, pkgDir) == "" then DatabaseNotDefined
              else DatabaseMissing(EffectiveDatabase(s, pkgDir))))
  {
  }

  /** Under version 2 the v6 path is returned as it is: neither its emptiness nor its existence is checked. */
  lemma V6UncheckedUnderVersion2(s: Settings, pkgDir: string, pathExists: string -> bool,
                                 v6: Option<string>, pathExists': string -> bool)
    requires Version(s) == 2
    requires pathExists'(EffectiveDatabase(s, pkgDir)) == pathExists(EffectiveDatabase(s, pkgDir))
    ensures var r := LoadDbSettings(s, pkgDir, pathExists);
            var r' := LoadDbSettings(s.(geoipv6Database := v6), pkgDir, pathExists');
      && r'.Ok? == r.Ok?
      && (r.Ok? ==> r'.value == r.value.(databaseV6 := v6.GetOr(DefaultDatabase(pkgDir, Geoipv6DefaultName))))
      && (r.Err? ==> r' == r)
  {
  }

  /** Under version 1 an empty or missing v6 file is an error even when the primary file is fine. */
  lemma V6CheckedUnderVersion1(s: Settings, pkgDir: string, pathExists: string -> bool)
    requires Version(s) == 1
    requires EffectiveDatabase(s, pkgDir) != "" && pathExists(EffectiveDatabase(s, pkgDir))
    ensures EffectiveDatabaseV6(s, pkgDir) == ""
        ==> LoadDbSettings(s, pkgDir, pathExists) == Err(ImproperlyConfigured(DatabaseV6NotDefined))
    ensures EffectiveDatabaseV6(s, pkgDir) != "" && !pathExists(EffectiveDatabaseV6(s, pkgDir))
        ==> LoadDbSettings(s, pkgDir, pathExists) == Err(ImproperlyConfigured(DatabaseV6Missing))
  {
  }

  // ------------------------------------------------------------------ readers

  /** An open reader: `pygeoip.GeoIP(path, MEMORY_CACHE)` or `geoip2.database.Reader(path)`. */
  datatype Reader = GeoIP(path: string) | Geoip2Reader(path: string)

  /**
   * What `Reader.city(ip)` answers. `city` stands for the response's city record
   * (by its name) and `cityContinent` for what `response.city.continent` gives.
   */
  datatype CityResponse = CityResponse(
    city: string,
    cityContinent: Option<string>,
    countryIsoCode: Option<string>,
    timeZone: Option<string>,
    latitude: Option<real>,
    longitude: Option<real>)

  /**
   * The file system and the database files' contents, indexed by file path and
   * address: `os.path.exists`, `GeoIP.time_zone_by_addr` and `Reader.city`
   * (`None` stands for `AddressNotFoundError`).
   */
  datatype GeoFiles = GeoFiles(
    pathExists: string -> bool,
    timeZoneByAddr: (string, string) -> Option<string>,
    city: (string, string) -> Option<CityResponse>)

  /** A coordinate of a `lookup` result: passed through from the reader, or a string literal. */
  datatype Coordinate = Reported(degrees: Option<real>) | Literal(text: string)

  /** The dict `lookup` returns. */
  datatype Location = Location(
    city: string,
    country: Option<string>,
    continent: Option<string>,
    timezone: Option<string>,
    latitude: Coordinate,
    longitude: Coordinate)

  const FallbackCountry := "IN"
  const FallbackCity := "IN"

  /** What `lookup` returns for an address the database does not hold; its coordinates are strings. */
  const FallbackLocation := Location(
    "Malavli", Some("IN"), Some("Asia"), Some("Asia/Kolkata"),
    Literal("18.746380"), Literal("73.473010"))

  /** The reader `load_db` opens as `db`. */
  function PrimaryReader(t: DbSettings): Reader {
    if t.version == 1 then GeoIP(t.database) else Geoip2Reader(t.database)
  }

  /** The reader `load_db` opens as `db_v6`: only version 1 has one. */
  function V6Reader(t: DbSettings): Option<Reader> {
    if t.version == 1 then Some(GeoIP(t.databaseV6)) else None
  }

  // ------------------------------------------------------------------ module state

  /** The module globals `db_loaded`, `db` and `db_v6`, with the inputs they are loaded from. */
  class GeoIpState {
    const settings: Settings
    const pkgDir: string
    const files: GeoFiles

    var dbLoaded: bool
    var db: Option<Reader>
    var dbV6: Option<Reader>

    /** Before loading both handles are `None`; afterwards they are the readers the settings name. */
    ghost predicate Valid()
      reads this
    {
      if dbLoaded then
        var conf := Configured();
        conf.Ok? && db == Some(PrimaryReader(conf.value)) && dbV6 == V6Reader(conf.value)
      else
        db == None && dbV6 == None
    }

    /** `load_db_settings()` against this module's settings and file system. */
    function Configured(): Result<DbSettings, Error> {
      LoadDbSettings(settings, pkgDir, files.pathExists)
    }

    /** The state right after import: nothing loaded. */
    constructor(settings: Settings, pkgDir: string, files: GeoFiles)
      ensures this.settings == settings && this.pkgDir == pkgDir && this.files == files
      ensures !dbLoaded && db == None && dbV6 == None
      ensures Valid()
    {
      this.settings := settings;
      this.pkgDir := pkgDir;
      this.files := files;
      dbLoaded := false;
      db := None;
      dbV6 := None;
    }

    /** `load_db()`: validate the settings, open the readers, set `db_loaded`. */
    method LoadDb() returns (r: Outcome<Error>)
      requires Valid()
      modifies this
      ensures Valid()
      ensures Configured().Err? ==> r == Fail(Configured().error) && unchanged(this)
      ensures Configured().Ok? ==> r == Pass && dbLoaded && db == Some(PrimaryReader(Configured().value))
      ensures Configured().Ok? && Configured().value.version == 1
          ==> dbV6 == Some(GeoIP(Configured().value.databaseV6))
      ensures Configured().Ok? && Configured().value.version == 2 ==> dbV6 == old(dbV6)
    {
      var conf := LoadDbSettings(settings, pkgDir, files.pathExists);
      if conf.Err? {
        return Fail(conf.error);
      }
      var t := conf.value;
      if t.version == 1 {
        db := Some(GeoIP(t.database));
        dbV6 := Some(GeoIP(t.databaseV6));
      } else if t.version == 2 {
        db := Some(Geoip2Reader(t.database));
      }
      dbLoaded := true;
      r := Pass;
    }

    /** `handle.time_zone_by_addr(ip)`: only a legacy reader has that method. */
    function TimeZoneByAddr(handle: Option<Reader>, ip: string): (r: Result<Option<string>, Error>)
      ensures r.Ok? <==> handle.Some? && handle.value.GeoIP?
    {
      match handle
      case Some(GeoIP(path)) => Ok(files.timeZoneByAddr(path, ip))
      case _ => Err(AttributeError)
    }

    /** `handle.city(ip)`, with `AddressNotFoundError` as `Ok(None)`: only a GeoIP2 reader has that method. */
    function CityOf(handle: Option<Reader>, ip: string): (r: Result<Option<CityResponse>, Error>)
      ensures r.Ok? <==> handle.Some? && handle.value.Geoip2Reader?
    {
      match handle
      case Some(Geoip2Reader(path)) => Ok(files.city(path, ip))
      case _ => Err(AttributeError)
    }

    /**
     * `lookup_tz_v1(ip)`: reads a database only while `db_loaded` is False, through
     * the v6 handle when the address contains ':'; once loaded it returns None.
     */
    function LookupTzV1(ip: string): (r: Result<Option<string>, Error>)
      reads this
      ensures dbLoaded ==> r == Ok(None)
      ensures r.Ok? && r.value.Some? ==>
        var handle := if ':' in ip then dbV6 else db;
        !dbLoaded && handle.Some? && r.value == files.timeZoneByAddr(handle.value.path, ip)
    {
      if !dbLoaded then
        if ':' in ip then TimeZoneByAddr(dbV6, ip) else TimeZoneByAddr(db, ip)
      else
        Ok(None)
    }

    /** The part of `lookup_tz_v2` after loading: `db.city(ip).location.time_zone`, None when not found. */
    function TimeZoneOfCity(ip: string): (r: Result<Option<string>, Error>)
      reads this
      ensures r.Ok? <==> db.Some? && db.value.Geoip2Reader?
      ensures r.Ok? && r.value.Some? ==> files.city(db.value.path, ip).Some?
    {
      match CityOf(db, ip)
      case Err(e) => Err(e)
      case Ok(None) => Ok(None)
      case Ok(Some(response)) => Ok(response.timeZone)
    }

    /** `lookup_tz_v2(ip)`: loads the databases first when `db_loaded` is False. */
    method LookupTzV2(ip: string) returns (r: Result<Option<string>, Error>)
      requires Valid()
      modifies this
      ensures Valid()
      ensures old(dbLoaded) ==> unchanged(this) && r == TimeZoneOfCity(ip)
      ensures !old(dbLoaded) && Configured().Err? ==> unchanged(this) && r == Err(Configured().error)
      ensures !old(dbLoaded) && Configured().Ok? ==> dbLoaded && r == TimeZoneOfCity(ip)
    {
      if !dbLoaded {
        var loaded := LoadDb();
        if loaded.Fail? {
          return Err(loaded.error);
        }
      }
      r := TimeZoneOfCity(ip);
    }

    /** `lookup_country(ip)`: version 2 only; 'IN' when the address is not found. */
    function LookupCountry(ip: string): (r: Result<Option<string>, Error>)
      reads this
      ensures r == Err(ImproperlyConfigured(VersionTwoRequired(CountryLookup))) <==> Version(settings) != 2
      ensures r.Ok? ==> db.Some? && db.value.Geoip2Reader?
    {
      if Version(settings) != 2 then
        Err(ImproperlyConfigured(VersionTwoRequired(CountryLookup)))
      else
        match CityOf(db, ip)
        case Err(e) => Err(e)
        case Ok(None) => Ok(Some(FallbackCountry))
        case Ok(Some(response)) => Ok(response.countryIsoCode)
    }

    /** `lookup_city(ip)`: version 2 only; 'IN' (not a city) when the address is not found. */
    function LookupCity(ip: string): (r: Result<string, Error>)
      reads this
      ensures r == Err(ImproperlyConfigured(VersionTwoRequired(CityLookup))) <==> Version(settings) != 2
      ensures r.Ok? ==> db.Some? && db.value.Geoip2Reader?
    {
      if Version(settings) != 2 then
        Err(ImproperlyConfigured(VersionTwoRequired(CityLookup)))
      else
        match CityOf(db, ip)
        case Err(e) => Err(e)
        case Ok(None) => Ok(FallbackCity)
        case Ok(Some(response)) => Ok(response.city)
    }

    /** `lookup(ip)`: version 2 only; the fixed Malavli record when the address is not found. */
    function Lookup(ip: string): (r: Result<Location, Error>)
      reads this
      ensures r == Err(ImproperlyConfigured(VersionTwoRequired(GeneralLookup))) <==> Version(settings) != 2
      ensures r.Ok? ==> db.Some? && db.value.Geoip2Reader?
      ensures r.Ok? && r.value.latitude.Literal? ==> r.value == FallbackLocation
    {
      if Version(settings) != 2 then
        Err(ImproperlyConfigured(VersionTwoRequired(GeneralLookup)))
      else
        match CityOf(db, ip)
        case Err(e) => Err(e)
        case Ok(None) => Ok(FallbackLocation)
        case Ok(Some(response)) =>
          Ok(Location(response.city, response.countryIsoCode, response.cityContinent,
                      response.timeZone, Reported(response.latitude), Reported(response.longitude)))
    }
  }

  // ------------------------------------------------------------------ properties of the state

  /** `db_loaded` is only ever set once the settings check out. */
  lemma LoadedMeansConfigured(g: GeoIpState)
    requires g.Valid() && g.dbLoaded
    ensures g.Configured().Ok? && Usable(g.Configured().value, g.files.pathExists)
    ensures g.Configured().value.version == Version(g.settings)
  {
  }

  /**
   * `lookup_tz_v1` never yields a timezone: before loading both handles are None
   * (so the reader call raises), and after loading it returns None.
   */
  lemma LookupTzV1NeverResolves(g: GeoIpState, ip: string)
    requires g.Valid()
    ensures g.LookupTzV1(ip) == if g.dbLoaded then Ok(None) else Err(AttributeError)
  {
  }

  /**
   * Once loaded under version 2, every lookup answers from the one GeoIP2 file for
   * v4 and v6 alike, and falls back to its literal default when the address is not found.
   */
  lemma Version2LookupsAnswerFromDatabase(g: GeoIpState, ip: string)
    requires g.Valid() && g.dbLoaded && Version(g.settings) == 2
    ensures var found := g.files.city(g.Configured().value.database, ip);
      && g.TimeZoneOfCity(ip) == Ok(if found.None? then None else found.value.timeZone)
      && g.LookupCountry(ip) == Ok(if found.None? then Some("IN") else found.value.countryIsoCode)
      && g.LookupCity(ip) == Ok(if found.None? then "IN" else found.value.city)
      && g.Lookup(ip).Ok?
      && (found.None? ==> g.Lookup(ip) == Ok(FallbackLocation))
      && (found.Some? ==>
            var response := found.value;
            g.Lookup(ip) == Ok(Location(response.city, response.countryIsoCode, response.cityContinent,
                                        response.timeZone, Reported(response.latitude),
                                        Reported(response.longitude))))
  {
  }

  /** `lookup_country`, `lookup_city` and `lookup` do not load: before `load_db` they raise, even under version 2. */
  lemma LookupsBeforeLoadRaise(g: GeoIpState, ip: string)
    requires g.Valid() && !g.dbLoaded
    ensures g.LookupCountry(ip).Err? && g.LookupCity(ip).Err? && g.Lookup(ip).Err?
    ensures Version(g.settings) == 2 ==>
      g.LookupCountry(ip) == Err(AttributeError) && g.LookupCity(ip) == Err(AttributeError)
      && g.Lookup(ip) == Err(AttributeError)
  {
  }

  /**
   * Loading twice answers and leaves the state as loading once: both calls
   * report what `load_db_settings()` reports, a failing load changes nothing,
   * and the second call leaves the handles where the first put them.
   */
  method LoadDbTwice(g: GeoIpState) returns (first: Outcome<Error>, second: Outcome<Error>,
                                             ghost afterFirst: (bool, Option<Reader>, Option<Reader>))
    requires g.Valid()
    modifies g
    ensures first == second
    ensures first == (if g.Configured().Ok? then Pass else Fail(g.Configured().error))
    ensures first.Fail? ==> unchanged(g)
    ensures (g.dbLoaded, g.db, g.dbV6) == afterFirst
    ensures g.Valid()
    ensures first.Pass? ==> g.dbLoaded && g.db == Some(PrimaryReader(g.Configured().value))
    ensures first.Pass? && g.Configured().value.version == 1
        ==> g.dbV6 == Some(GeoIP(g.Configured().value.databaseV6))
    ensures first.Pass? && g.Configured().value.version == 2 ==> g.dbV6 == old(g.dbV6)
  {
    first := g.LoadDb();
    afterFirst := (g.dbLoaded, g.db, g.dbV6);
    second := g.LoadDb();
  }
}
