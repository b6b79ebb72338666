# easy_timezones in Dafny

A model of the decision logic of django-easy-timezones. The package resolves a web client's IP address to a timezone, country and city with an offline GeoIP database. It works with either of two database generations: version 1 is the legacy pygeoip format, with separate IPv4 and IPv6 files; version 2 is the single GeoIP2 city file. The package module validates its settings, loads the database readers into module-level state, and answers lookups with fixed defaults for addresses the database does not hold. The middleware picks the request's timezone, country and city from its session, or else from its candidate client addresses, and writes them back into the session.

- `wrappers.dfy`, module `Wrappers`: `Option`, `Result` (a value or a raised exception) and `Outcome`.
- `easy_timezones.dfy`, module `EasyTimezones`, from `easy_timezones/__init__.py`:
  - the settings check `LoadDbSettings` and its properties, as pure functions and lemmas;
  - the globals `db_loaded`, `db` and `db_v6` as the fields of the class `GeoIpState`;
  - `load_db` and `lookup_tz_v2` as methods that update those fields;
  - the other lookups as functions that read them.
- `middleware.dfy`, module `Middleware`, from `easy_timezones/middleware.py`:
  - `process_request` as the method `EasyTimezoneMiddleware.ProcessRequest`, which updates the request's session map;
  - its three candidate loops as methods, each proved against a specification function;
  - `Resolve`, which gives the whole outcome of a request, and lemmas that state the policy.

The inputs the code gets from outside are parameters of the model:
- the Django settings (`Settings`);
- the file system and the contents of the database files (`GeoFiles`: `pathExists` for `os.path.exists`, `time_zone_by_addr`, `city`), with "address not found" as `None`;
- the predicates `is_valid_ip` and `is_local_ip` (`IpClassifier`);
- the client address header (`Request.clientIp`);
- the default timezone's name.

The effects of `timezone.activate`, `timezone.deactivate` and the `detected_timezone` signal are recorded as a ghost list of events.

The model follows the code as written, including these behaviours:
- `lookup_tz_v1` reads a database only while `db_loaded` is False. At that point both handles are still None, so it raises. Once loaded it returns None. It never yields a timezone (`LookupTzV1NeverResolves`). Under version 1 the middleware therefore deactivates the timezone for any request that has a qualifying candidate (`Version1QualifyingCandidateDeactivates`).
- The timezone loop has no `break`, so the last qualifying candidate decides the timezone (`LastCandidateDecidesTimezone`). The country and city loops stop at the first qualifying candidate (`FirstCandidateDecidesPlace`).
- `lookup_city` falls back to `'IN'`, not to a city name. The fallback record of `lookup` carries its latitude and longitude as strings.
- The middleware imports `db_loaded` by value, so its copy never changes. It calls `load_db` on every request unless the databases were already loaded when it was imported.
- The middleware reads `GEOIP_VERSION` without a default. An unset version therefore raises `AttributeError`, after `load_db` has succeeded with the default version 1.
- `lookup_country`, `lookup_city` and `lookup` never load the databases themselves. Before `load_db` they raise, even under version 2 (`LookupsBeforeLoadRaise`).
- Under version 1, `load_db_settings` does not require the two database paths to differ.

## Model

| member | source | states |
|---|---|---|
| `EasyTimezones.DefaultDatabase` | easy_timezones/__init__.py:20-23 | a default database path is non-empty (a `Path` is truthy) and ends in the file's name |
| `EasyTimezones.LoadDbSettings` | easy_timezones/__init__.py:15-58 | a returned triple is usable: a supported version, a non-empty existing primary file, and under version 1 a non-empty existing v6 file. It is exactly the effective (primary, v6, version), with defaults applied. The unsupported-version error is raised iff the version is outside {1, 2} |
| `EasyTimezones.LoadDbSettingsSucceedsIffUsable` | easy_timezones/__init__.py:26-58 | the settings succeed iff their effective triple is usable |
| `EasyTimezones.DefaultsWhenUnset` | easy_timezones/__init__.py:21-34 | with nothing set, the version is 1 and the defaults are the legacy city and v6 files; under version 2 the primary default is the GeoIP2 file |
| `EasyTimezones.VersionCheckedBeforePaths` | easy_timezones/__init__.py:26-30 | an unsupported version gives the same error whatever the paths are and whatever exists on disk |
| `EasyTimezones.PrimaryCheckedBeforeV6` | easy_timezones/__init__.py:36-43 | an empty primary path raises "not defined" and a missing file raises "does not exist" naming the path, whatever the v6 setting is |
| `EasyTimezones.V6UncheckedUnderVersion2` | easy_timezones/__init__.py:45-58 | under version 2 the v6 path is returned unchecked: changing it, or whether it exists, changes nothing but the returned v6 path |
| `EasyTimezones.V6CheckedUnderVersion1` | easy_timezones/__init__.py:49-56 | under version 1, with a good primary file, an empty v6 path or a missing v6 file raises its own error |
| `EasyTimezones.GeoIpState.constructor` | easy_timezones/__init__.py:10-12 | at import nothing is loaded and both handles are None |
| `EasyTimezones.GeoIpState.LoadDb` | easy_timezones/__init__.py:64-77 | a settings error propagates and changes nothing. Otherwise `db_loaded` is set. Version 1 opens both legacy readers. Version 2 opens one GeoIP2 reader and leaves `db_v6` as it was |
| `EasyTimezones.GeoIpState.TimeZoneByAddr` | easy_timezones/__init__.py:89-92 | `time_zone_by_addr` succeeds iff the handle is a legacy reader; otherwise it raises `AttributeError` |
| `EasyTimezones.GeoIpState.CityOf` | easy_timezones/__init__.py:109-110 | `city` succeeds iff the handle is a GeoIP2 reader |
| `EasyTimezones.GeoIpState.LookupTzV1` | easy_timezones/__init__.py:80-92 | once loaded it returns None. A timezone comes back only while not loaded, read from the v6 handle iff the address contains ':' |
| `EasyTimezones.GeoIpState.TimeZoneOfCity` | easy_timezones/__init__.py:108-112 | succeeds iff `db` is a GeoIP2 reader; a timezone comes back only for an address the file holds |
| `EasyTimezones.GeoIpState.LookupTzV2` | easy_timezones/__init__.py:95-112 | loads first when not loaded, and a load error propagates. Otherwise the answer is the city response's timezone, or None when not found. Once loaded, the state is unchanged |
| `EasyTimezones.GeoIpState.LookupCountry` | easy_timezones/__init__.py:116-125 | raises the version-2-required error iff the version is not 2, for every address; any answer comes from a GeoIP2 reader |
| `EasyTimezones.GeoIpState.LookupCity` | easy_timezones/__init__.py:128-137 | raises the version-2-required error iff the version is not 2, for every address; any answer comes from a GeoIP2 reader |
| `EasyTimezones.GeoIpState.Lookup` | easy_timezones/__init__.py:140-172 | raises the version-2-required error iff the version is not 2. Any answer comes from a GeoIP2 reader. A result with literal (string) coordinates is exactly the Malavli / IN / Asia / Asia/Kolkata fallback |
| `EasyTimezones.LoadedMeansConfigured` | easy_timezones/__init__.py:64-77 | `db_loaded` holds only when the settings check out, with the settings' own version |
| `EasyTimezones.LookupTzV1NeverResolves` | easy_timezones/__init__.py:88-92 | in every reachable state `lookup_tz_v1` raises before loading and returns None after loading |
| `EasyTimezones.Version2LookupsAnswerFromDatabase` | easy_timezones/__init__.py:103-172 | once loaded under version 2, the four lookups answer from the one GeoIP2 file for v4 and v6 alike. A missing address gives None, `'IN'`, `'IN'` and the Malavli record. Otherwise they give the record's timezone, country code and city, and the whole record |
| `EasyTimezones.LookupsBeforeLoadRaise` | easy_timezones/__init__.py:116-172 | before `load_db`, `lookup_country`, `lookup_city` and `lookup` raise; under version 2 the error is `AttributeError` |
| `EasyTimezones.LoadDbTwice` | easy_timezones/__init__.py:64-77 | both calls of `load_db` return what `load_db_settings()` reports (nothing, or its `ImproperlyConfigured`); a failing load changes no global; after a successful one `db_loaded` is True, `db` is the reader of the configured path, `db_v6` the v6 reader under version 1 and untouched under version 2; the second call leaves `db_loaded`, `db` and `db_v6` exactly where the first put them |
| `Middleware.Split` | easy_timezones/middleware.py:43 | `client_ip.split(',')` yields one piece more than there are commas, and no piece holds a comma |
| `Middleware.JoinSplit` | easy_timezones/middleware.py:43 | the pieces joined with commas give back the header |
| `Middleware.SplitJoin` | easy_timezones/middleware.py:43 | pieces without commas, joined and split again, are the same pieces |
| `Middleware.FirstQualifying` | easy_timezones/middleware.py:64-68 | the position found holds a valid non-local address and no earlier one does; with none, no address qualifies |
| `Middleware.LastQualifying` | easy_timezones/middleware.py:44-49 | the position found holds a valid non-local address and no later one does; with none, no address qualifies |
| `Middleware.EasyTimezoneMiddleware.constructor` | easy_timezones/middleware.py:7 | the middleware's `db_loaded` is the package's value at import |
| `Middleware.EasyTimezoneMiddleware.TimezoneFromCandidates` | easy_timezones/middleware.py:40-49 | the loop ends with the value of the timezone fold from the default timezone: every qualifying candidate overwrites `tz`, and a raise stops it. It dispatches to `lookup_tz_v1` under version 1 and to `lookup_tz_v2` otherwise. The loaded state is unchanged |
| `Middleware.EasyTimezoneMiddleware.PlaceFromCandidates` | easy_timezones/middleware.py:60-82 | under version 2 the result is the lookup of the first qualifying candidate, or the default with none. Under any other version it is the default (`'IN'` or `'Mumbai'`) |
| `Middleware.EasyTimezoneMiddleware.ResolvePlace` | easy_timezones/middleware.py:59-85 | a truthy stored place is kept, otherwise the candidates decide. A truthy result is stored under its key. A lookup error leaves the session unchanged |
| `Middleware.EasyTimezoneMiddleware.ResolveTimezone` | easy_timezones/middleware.py:34-57 | a truthy stored timezone is kept, otherwise the candidates decide. A truthy `tz` is activated (with the signal when there is a user model and a user) and stored as `str(tz)`. A falsy `tz` deactivates and writes nothing |
| `Middleware.EasyTimezoneMiddleware.ProcessRequest` | easy_timezones/middleware.py:18-85 | a falsy request changes nothing. A load error propagates and changes nothing. An unset version raises after loading. Otherwise the outcome, the new session and the events are those of `Resolve` |
| `Middleware.TzLoopLastWins` | easy_timezones/middleware.py:44-49 | when no lookup raises, the timezone loop ends with the last qualifying candidate's answer, or with its start value when none qualifies |
| `Middleware.LoadedLookupsAnswer` | easy_timezones/middleware.py:44-49 | with the databases loaded from the settings the middleware reads, its version is 1 or 2, no lookup raises, and under version 1 the timezone lookup gives None |
| `Middleware.LastCandidateDecidesTimezone` | easy_timezones/middleware.py:38-49 | without a stored timezone: the default timezone when no candidate qualifies; None under version 1; under version 2 the database's timezone for the last qualifying candidate |
| `Middleware.Version1QualifyingCandidateDeactivates` | easy_timezones/middleware.py:46-57 | under version 1, with no stored timezone and a qualifying candidate, `tz` is None: the only event is a deactivation and the timezone key is not written |
| `Middleware.StoredTimezoneKept` | easy_timezones/middleware.py:34-53 | a truthy stored timezone is used whatever the candidates are: it is activated first and stays in the session |
| `Middleware.PlaceDefaultUnlessVersion2` | easy_timezones/middleware.py:59-85 | under any version but 2 a stored place is kept and a missing one becomes `'IN'` or `'Mumbai'`, whatever the candidates |
| `Middleware.FirstCandidateDecidesPlace` | easy_timezones/middleware.py:64-68 | under version 2, without a stored place, the database's country or city for the first qualifying candidate is used (`'IN'` when not found); with none the default stays |
| `Middleware.ResolveNeverFailsOnceLoaded` | easy_timezones/middleware.py:28-85 | once the databases are loaded from the middleware's own settings, a request never raises |
| `Middleware.OnlyThreeKeysChange` | easy_timezones/middleware.py:53-85 | a request removes no session key and writes only `django_timezone`, `django_country` and `django_city` |

## Left out

- The database readers (`pygeoip.GeoIP`, `geoip2.database.Reader`) and their binary formats: a database file is the pair of functions in `GeoFiles`, and opening a file never fails once it exists.
- `Reader.city` raising `ValueError` for a malformed address: the model's `city` function answers every string.
- `response.city` is a GeoIP2 city record object. The model represents it by its name, a string. So a record whose name is empty reads as falsy in the middleware, where the object would be truthy. `response.city.continent` is taken as whatever the reader supplies (`CityResponse.cityContinent`); the geoip2 library is not part of this model, so whether its city record has that attribute at all (if it has none, `lookup` raises `AttributeError` for every address the database holds) is not decided here.
- Latitude and longitude are opaque values passed through (`Option<real>`); no floating-point arithmetic is done on them.
- Setting values of other Python types, such as an explicit `None` path or a non-integer version, are not modelled: paths are strings, where the empty string is falsy, and the version is an integer.
- The import-time call `load_db_settings()` at easy_timezones/__init__.py:61: its only effect is to raise at import.
- `get_ip_address_from_request`, `is_valid_ip` and `is_local_ip` (their module, utils.py, is not part of this model): they are an input string and two uninterpreted predicates.
- `timezone.activate`, `timezone.deactivate`, `get_default_timezone`, the `detected_timezone` signal and `get_user_model`: recorded as events or given as inputs; the signal's sender and instance are not recorded.
- Thread safety: the code takes no lock, and the model is sequential.
- Reloading a database: there is no reload path beyond the repeated `load_db` calls, which reopen the same files. Readers are compared by the path they were opened from: the source's second `load_db` opens new reader objects, and the model treats them as equal to the old ones.
- The Django settings and the file system do not change while the process runs: `GeoIpState.settings` and `GeoIpState.files` are constants. `EasyTimezones.GeoIpState.Valid`, `EasyTimezones.LoadedMeansConfigured`, `EasyTimezones.LoadDbTwice`, `Middleware.EasyTimezoneMiddleware.Valid`, `Middleware.EasyTimezoneMiddleware.ProcessRequest` and `Middleware.ResolveNeverFailsOnceLoaded` rely on this. In the source `os.path.exists` runs again on every `load_db`, so a database file removed after the first load makes later requests raise `ImproperlyConfigured` while `db_loaded` stays True; the model does not capture that.
- `Middleware.EasyTimezoneMiddleware.ProcessRequest`: the three calls to `get_ip_address_from_request` are modelled as one split of the same header, since the helper's answer depends only on the request.
- `Middleware.EasyTimezoneMiddleware.TimezoneFromCandidates`: it requires the databases to be loaded already, as `process_request` ensures before the loop. So `lookup_tz_v2`'s own load is never taken there; that load path is modelled in `LookupTzV2`.
