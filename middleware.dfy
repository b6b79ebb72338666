/**
 * `EasyTimezoneMiddleware.process_request`: pick the request's timezone, country
 * and city from its session or from its candidate client addresses, and write
 * them back into the session.
 *
 * `is_valid_ip` and `is_local_ip` are the two predicates of an `IpClassifier`;
 * the client address header is a field of the `Request`; the default timezone,
 * the AUTH_USER_MODEL setting and the effects of `timezone.activate`,
 * `timezone.deactivate` and the `detected_timezone` signal are recorded as events.
 */
module Middleware {
  import opened Wrappers
  import opened EasyTimezones

  const TimezoneKey := "django_timezone"
  const CountryKey := "django_country"
  const CityKey := "django_city"

  // ------------------------------------------------------------------ candidate addresses

  /** The number of occurrences of `c` in `s`. */
  function Count(s: string, c: char): nat {
    if s == [] then 0 else (if s[0] == c then 1 else 0) + Count(s[1..], c)
  }

  /** Python's `s.split(sep)` for a one-character separator. */
  function Split(s: string, sep: char): (parts: seq<string>)
    ensures |parts| == Count(s, sep) + 1
    ensures forall i :: 0 <= i < |parts| ==> sep !in parts[i]
  {
    if s == [] then [""]
    else
      var rest := Split(s[1..], sep);
      if s[0] == sep then [""] + rest
      else [[s[0]] + rest[0]] + rest[1..]
  }

  /** Python's `sep.join(parts)`. */
  function Join(parts: seq<string>, sep: char): string {
    if |parts| == 0 then ""
    else if |parts| == 1 then parts[0]
    else parts[0] + [sep] + Join(parts[1..], sep)
  }

  /** Splitting loses nothing: the pieces joined back give the header. */
  lemma {:induction false} JoinSplit(s: string, sep: char)
    ensures Join(Split(s, sep), sep) == s
  {
    if s != [] {
      var rest := Split(s[1..], sep);
      JoinSplit(s[1..], sep);
      if s[0] == sep {
        assert Split(s, sep) == [""] + rest;
        assert ([""] + rest)[1..] == rest;
      } else {
        var parts := Split(s, sep);
        assert parts == [[s[0]] + rest[0]] + rest[1..];
        if |rest| > 1 {
          assert parts[1..] == rest[1..];
        }
      }
    }
  }

  /** A piece without the separator, followed by the separator, splits off as one piece. */
  lemma {:induction false} SplitPiece(p: string, t: string, sep: char)
    requires sep !in p
    ensures Split(p + [sep] + t, sep) == [p] + Split(t, sep)
  {
    if p != [] {
      SplitPiece(p[1..], t, sep);
      assert (p + [sep] + t)[1..] == p[1..] + [sep] + t;
      assert [p[0]] + p[1..] == p;
    } else {
      assert p + [sep] + t == [sep] + t;
      assert ([sep] + t)[1..] == t;
    }
  }

  /** A string without the separator splits into itself. */
  lemma {:induction false} SplitNoSeparator(p: string, sep: char)
    requires sep !in p
    ensures Split(p, sep) == [p]
  {
    if p != [] {
      SplitNoSeparator(p[1..], sep);
      assert [p[0]] + p[1..] == p;
    }
  }

  /** Joining pieces that hold no separator and splitting again gives the same pieces. */
  lemma {:induction false} SplitJoin(parts: seq<string>, sep: char)
    requires |parts| >= 1
    requires forall i :: 0 <= i < |parts| ==> sep !in parts[i]
    ensures Split(Join(parts, sep), sep) == parts
  {
    if |parts| == 1 {
      SplitNoSeparator(parts[0], sep);
    } else {
      SplitJoin(parts[1..], sep);
      SplitPiece(parts[0], Join(parts[1..], sep), sep);
      assert [parts[0]] + parts[1..] == parts;
    }
  }

  /** `is_valid_ip` and `is_local_ip`. */
  datatype IpClassifier = IpClassifier(isValidIp: string -> bool, isLocalIp: string -> bool)

  /** `is_valid_ip(ip) and not is_local_ip(ip)` */
  predicate Qualifies(c: IpClassifier, ip: string) {
    c.isValidIp(ip) && !c.isLocalIp(ip)
  }

  /** The position of the first candidate that qualifies. */
  function FirstQualifying(c: IpClassifier, ips: seq<string>): (k: Option<nat>)
    ensures k.Some? ==> k.value < |ips| && Qualifies(c, ips[k.value])
    ensures k.Some? ==> forall j :: 0 <= j < k.value ==> !Qualifies(c, ips[j])
    ensures k.None? ==> forall j :: 0 <= j < |ips| ==> !Qualifies(c, ips[j])
  {
    if |ips| == 0 then None
    else if Qualifies(c, ips[0]) then Some(0)
    else
      match FirstQualifying(c, ips[1..])
      case None => None
      case Some(k) => Some(k + 1)
  }

  /** The position of the last candidate that qualifies. */
  function LastQualifying(c: IpClassifier, ips: seq<string>): (k: Option<nat>)
    ensures k.Some? ==> k.value < |ips| && Qualifies(c, ips[k.value])
    ensures k.Some? ==> forall j :: k.value < j < |ips| ==> !Qualifies(c, ips[j])
    ensures k.None? ==> forall j :: 0 <= j < |ips| ==> !Qualifies(c, ips[j])
  {
    if |ips| == 0 then None
    else
      match LastQualifying(c, ips[1..])
      case Some(k) => Some(k + 1)
      case None => if Qualifies(c, ips[0]) then Some(0) else None
  }

  // ------------------------------------------------------------------ session values

  /** `session.get(key)` */
  function Get(session: map<string, string>, key: string): Option<string> {
    if key in session then Some(session[key]) else None
  }

  /** Python truthiness of a string or None. */
  predicate Truthy(v: Option<string>) {
    v.Some? && v.value != ""
  }

  /** The value of `tz`: the default timezone object, a zone name, or None. */
  datatype Zone = DefaultZone | Named(name: string) | NoZone

  /** `ZoneOf(found)` is what `tz = lookup_tz_v…(ip)` assigns. */
  function ZoneOf(found: Option<string>): Zone {
    match found
    case None => NoZone
    case Some(name) => Named(name)
  }

  /** Python truthiness of `tz`: a timezone object is always truthy. */
  predicate ZoneTruthy(z: Zone) {
    z.DefaultZone? || (z.Named? && z.name != "")
  }

  /** The side effects on Django that the middleware causes, in order. */
  datatype Event = Activated(zone: string) | Deactivated | TimezoneDetected(zone: string)

  /** The two place fields: country and city. */
  datatype Place = Country | City

  function PlaceKey(p: Place): string {
    match p
    case Country => CountryKey
    case City => CityKey
  }

  /** The middleware's own default for a place: 'IN' for the country, 'Mumbai' for the city. */
  function PlaceDefault(p: Place): string {
    match p
    case Country => "IN"
    case City => "Mumbai"
  }

  /** What `process_request` leaves behind: its outcome, the session and the events it caused. */
  datatype Resolution = Resolution(outcome: Outcome<Error>, session: map<string, string>, events: seq<Event>)

  /** An incoming request: its session dictionary and what the request helpers report about it. */
  class Request {
    var session: map<string, string>
    const clientIp: string   // get_ip_address_from_request(request)
    const hasUser: bool      // getattr(request, 'user', None) is truthy

    constructor(session: map<string, string>, clientIp: string, hasUser: bool)
      ensures this.session == session && this.clientIp == clientIp && this.hasUser == hasUser
    {
      this.session := session;
      this.clientIp := clientIp;
      this.hasUser := hasUser;
    }
  }

  class EasyTimezoneMiddleware {
    const geo: GeoIpState
    /** `from . import db_loaded`: a copy taken at import, never updated by `load_db`. */
    const dbLoadedCopy: bool
    const classifier: IpClassifier
    /** `str(timezone.get_default_timezone())` */
    const defaultZoneName: string
    /** `getattr(settings, 'AUTH_USER_MODEL', None)` is truthy */
    const authUserModel: bool
    ghost var events: seq<Event>

    ghost predicate Valid()
      reads this, geo
    {
      geo.Valid() && (dbLoadedCopy ==> geo.dbLoaded)
    }

    constructor(geo: GeoIpState, classifier: IpClassifier, defaultZoneName: string, authUserModel: bool)
      requires geo.Valid()
      ensures Valid()
      ensures this.geo == geo && dbLoadedCopy == geo.dbLoaded && this.classifier == classifier
      ensures this.defaultZoneName == defaultZoneName && this.authUserModel == authUserModel
      ensures events == []
    {
      this.geo := geo;
      dbLoadedCopy := geo.dbLoaded;
      this.classifier := classifier;
      this.defaultZoneName := defaultZoneName;
      this.authUserModel := authUserModel;
      events := [];
    }

    /** `str(tz)` */
    function ZoneName(z: Zone): string {
      match z
      case DefaultZone => defaultZoneName
      case Named(name) => name
      case NoZone => "None"
    }

    /** The timezone lookup the loop makes for one candidate, once the databases are loaded. */
    function TzLookup(version: int, ip: string): Result<Option<string>, Error>
      reads geo
    {
      if version == 1 then geo.LookupTzV1(ip) else geo.TimeZoneOfCity(ip)
    }

    /** The timezone loop from `tz` on: every qualifying candidate overwrites `tz`; a raise stops it. */
    function TzLoop(ips: seq<string>, version: int, tz: Zone): Result<Zone, Error>
      reads geo
      decreases |ips|
    {
      if |ips| == 0 then Ok(tz)
      else if Qualifies(classifier, ips[0]) then
        match TzLookup(version, ips[0])
        case Err(e) => Err(e)
        case Ok(found) => TzLoop(ips[1..], version, ZoneOf(found))
      else TzLoop(ips[1..], version, tz)
    }

    /** The timezone of lines 34-49: the session's, else the loop's from the default timezone. */
    function Timezone(session: map<string, string>, ips: seq<string>, version: int): Result<Zone, Error>
      reads geo
    {
      var stored := Get(session, TimezoneKey);
      if Truthy(stored) then Ok(Named(stored.value)) else TzLoop(ips, version, DefaultZone)
    }

    /** `lookup_country(ip)` or `lookup_city(ip)` */
    function PlaceLookup(p: Place, ip: string): Result<Option<string>, Error>
      reads geo
    {
      match p
      case Country => geo.LookupCountry(ip)
      case City => match geo.LookupCity(ip) case Err(e) => Err(e) case Ok(city) => Ok(Some(city))
    }

    /** The place loop: under version 2 the first qualifying candidate is looked up; otherwise the default. */
    function CandidatePlace(p: Place, ips: seq<string>, version: int): Result<Option<string>, Error>
      reads geo
    {
      if version == 2 then
        match FirstQualifying(classifier, ips)
        case None => Ok(Some(PlaceDefault(p)))
        case Some(k) => PlaceLookup(p, ips[k])
      else Ok(Some(PlaceDefault(p)))
    }

    /** The country of lines 59-68 or the city of lines 73-82: the session's, else the loop's. */
    function PlaceOf(p: Place, session: map<string, string>, ips: seq<string>, version: int): Result<Option<string>, Error>
      reads geo
    {
      var stored := Get(session, PlaceKey(p));
      if Truthy(stored) then Ok(stored) else CandidatePlace(p, ips, version)
    }

    /** The events of lines 51-57. */
    function ZoneEvents(tz: Zone, hasUser: bool): seq<Event> {
      if ZoneTruthy(tz) then
        [Activated(ZoneName(tz))] + (if authUserModel && hasUser then [TimezoneDetected(ZoneName(tz))] else [])
      else [Deactivated]
    }

    /** `session[key] = value` when the value is truthy. */
    function StoreIfTruthy(session: map<string, string>, key: string, v: Option<string>): map<string, string> {
      if Truthy(v) then session[key := v.value] else session
    }

    /** Everything after the version is read, with the databases loaded. */
    function Resolve(s0: map<string, string>, ips: seq<string>, version: int, hasUser: bool): Resolution
      reads geo
    {
      match Timezone(s0, ips, version)
      case Err(e) => Resolution(Fail(e), s0, [])
      case Ok(tz) =>
        var s1 := if ZoneTruthy(tz) then s0[TimezoneKey := ZoneName(tz)] else s0;
        var events := ZoneEvents(tz, hasUser);
        match PlaceOf(Country, s1, ips, version)
        case Err(e) => Resolution(Fail(e), s1, events)
        case Ok(country) =>
          var s2 := StoreIfTruthy(s1, CountryKey, country);
          match PlaceOf(City, s2, ips, version)
          case Err(e) => Resolution(Fail(e), s2, events)
          case Ok(city) => Resolution(Pass, StoreIfTruthy(s2, CityKey, city), events)
    }

    /** The timezone loop of lines 44-49. */
    method TimezoneFromCandidates(ips: seq<string>, version: int) returns (r: Result<Zone, Error>)
      requires geo.Valid() && geo.dbLoaded
      modifies geo
      ensures unchanged(geo)
      ensures r == TzLoop(ips, version, DefaultZone)
    {
      var tz := DefaultZone;
      var i := 0;
      while i < |ips|
        invariant 0 <= i <= |ips|
        invariant unchanged(geo) && geo.Valid() && geo.dbLoaded
        invariant TzLoop(ips[i..], version, tz) == TzLoop(ips, version, DefaultZone)
      {
        var ip := ips[i];
        assert ips[i..][1..] == ips[i + 1..];
        if Qualifies(classifier, ip) {
          var found: Result<Option<string>, Error>;
          if version == 1 {
            found := geo.LookupTzV1(ip);
          } else {
            found := geo.LookupTzV2(ip);
          }
          match found {
            case Err(e) =>
              return Err(e);
            case Ok(zone) =>
              tz := ZoneOf(zone);
          }
        }
        i := i + 1;
      }
      r := Ok(tz);
    }

    /** The country loop of lines 60-68 and the city loop of lines 74-82. */
    method PlaceFromCandidates(p: Place, ips: seq<string>, version: int) returns (r: Result<Option<string>, Error>)
      ensures r == CandidatePlace(p, ips, version)
    {
      r := Ok(Some(PlaceDefault(p)));
      var i := 0;
      while i < |ips|
        invariant 0 <= i <= |ips|
        invariant r == Ok(Some(PlaceDefault(p)))
        invariant version == 2 ==> forall j :: 0 <= j < i ==> !Qualifies(classifier, ips[j])
      {
        var ip := ips[i];
        if Qualifies(classifier, ip) {
          if version == 2 {
            r := PlaceLookup(p, ip);
            break;
          }
        }
        i := i + 1;
      }
    }

    /** Lines 59-71 (country) and 73-85 (city): keep or look up the place, store it when truthy. */
    method ResolvePlace(request: Request, p: Place, ips: seq<string>, version: int) returns (r: Outcome<Error>)
      modifies request
      ensures var found := PlaceOf(p, old(request.session), ips, version);
        && (found.Err? ==> r == Fail(found.error) && request.session == old(request.session))
        && (found.Ok? ==> r == Pass && request.session == StoreIfTruthy(old(request.session), PlaceKey(p), found.value))
    {
      var place := Get(request.session, PlaceKey(p));
      if !Truthy(place) {
        var found := PlaceFromCandidates(p, ips, version);
        match found {
          case Err(e) =>
            return Fail(e);
          case Ok(v) =>
            place := v;
        }
      }
      if Truthy(place) {
        request.session := request.session[PlaceKey(p) := place.value];
      }
      r := Pass;
    }

    /** Lines 34-57: keep or look up the timezone, then activate and store it, or deactivate. */
    method ResolveTimezone(request: Request, ips: seq<string>, version: int) returns (r: Outcome<Error>)
      requires geo.Valid() && geo.dbLoaded
      modifies this, geo, request
      ensures unchanged(geo)
      ensures var found := Timezone(old(request.session), ips, version);
        && (found.Err? ==> r == Fail(found.error) && request.session == old(request.session) && events == old(events))
        && (found.Ok? ==>
              && r == Pass
              && events == old(events) + ZoneEvents(found.value, request.hasUser)
              && request.session == if ZoneTruthy(found.value)
                                    then old(request.session)[TimezoneKey := ZoneName(found.value)]
                                    else old(request.session))
    {
      var storedTz := Get(request.session, TimezoneKey);
      var tz: Zone;
      if Truthy(storedTz) {
        tz := Named(storedTz.value);
      } else {
        var found := TimezoneFromCandidates(ips, version);
        match found {
          case Err(e) =>
            return Fail(e);
          case Ok(zone) =>
            tz := zone;
        }
      }
      if ZoneTruthy(tz) {
        events := events + [Activated(ZoneName(tz))];
        request.session := request.session[TimezoneKey := ZoneName(tz)];
        if authUserModel && request.hasUser {
          events := events + [TimezoneDetected(ZoneName(tz))];
        }
      } else {
        events := events + [Deactivated];
      }
      r := Pass;
    }

    /** `process_request(request)`; a null request is Python's falsy request. */
    method ProcessRequest(request: Request?) returns (r: Outcome<Error>)
      requires Valid()
      modifies this, geo, request
      ensures Valid()
      ensures request == null ==> r == Pass && unchanged(geo) && events == old(events)
      ensures request != null && geo.Configured().Err? ==>
        r == Fail(geo.Configured().error) && unchanged(geo) && unchanged(request) && events == old(events)
      ensures request != null && geo.Configured().Ok? ==> geo.dbLoaded
      ensures request != null && geo.Configured().Ok? && geo.settings.geoipVersion.None? ==>
        r == Fail(AttributeError) && unchanged(request) && events == old(events)
      ensures request != null && geo.Configured().Ok? && geo.settings.geoipVersion.Some? ==>
        var res := Resolve(old(request.session), Split(request.clientIp, ','),
                           geo.settings.geoipVersion.value, request.hasUser);
        r == res.outcome && request.session == res.session && events == old(events) + res.events
    {
      if request == null {
        return Pass;
      }
      if !dbLoadedCopy {
        var loaded := geo.LoadDb();
        if loaded.Fail? {
          return loaded;
        }
      }
      if geo.settings.geoipVersion.None? {
        // getattr(settings, 'GEOIP_VERSION') has no default
        return Fail(AttributeError);
      }
      var version := geo.settings.geoipVersion.value;
      var ips := Split(request.clientIp, ',');
      r := ResolveTimezone(request, ips, version);
      if r.Fail? {
        return;
      }
      r := ResolvePlace(request, Country, ips, version);
      if r.Fail? {
        return;
      }
      r := ResolvePlace(request, City, ips, version);
    }
  }

  // ------------------------------------------------------------------ properties of the policy

  /**
   * When no lookup raises, the timezone loop ends with the last qualifying
   * candidate's answer, and with its starting value when none qualifies.
   */
  lemma {:induction false} TzLoopLastWins(m: EasyTimezoneMiddleware, ips: seq<string>, version: int, tz: Zone)
    requires forall j :: 0 <= j < |ips| && Qualifies(m.classifier, ips[j]) ==> m.TzLookup(version, ips[j]).Ok?
    ensures m.TzLoop(ips, version, tz)
         == Ok(match LastQualifying(m.classifier, ips)
               case None => tz
               case Some(k) => ZoneOf(m.TzLookup(version, ips[k]).value))
    decreases |ips|
  {
    if |ips| > 0 {
      forall j | 0 <= j < |ips[1..]| && Qualifies(m.classifier, ips[1..][j])
        ensures m.TzLookup(version, ips[1..][j]).Ok?
      {
        assert ips[1..][j] == ips[j + 1];
      }
      if Qualifies(m.classifier, ips[0]) {
        TzLoopLastWins(m, ips[1..], version, ZoneOf(m.TzLookup(version, ips[0]).value));
      } else {
        TzLoopLastWins(m, ips[1..], version, tz);
      }
    }
  }

  /**
   * Once the databases are loaded from the settings the middleware reads its version
   * from, no lookup it makes raises: under version 1 the timezone lookup answers None.
   */
  lemma LoadedLookupsAnswer(m: EasyTimezoneMiddleware, version: int, ip: string)
    requires m.geo.Valid() && m.geo.dbLoaded && m.geo.settings.geoipVersion == Some(version)
    ensures version in {1, 2}
    ensures version == 1 ==> m.TzLookup(version, ip) == Ok(None)
    ensures m.TzLookup(version, ip).Ok?
    ensures version == 2 ==> m.PlaceLookup(Country, ip).Ok? && m.PlaceLookup(City, ip).Ok?
  {
  }

  /**
   * Without a timezone in the session the last qualifying candidate decides it:
   * the default timezone when none qualifies, None under version 1, and under
   * version 2 what the database holds for that candidate.
   */
  lemma LastCandidateDecidesTimezone(m: EasyTimezoneMiddleware, session: map<string, string>,
                                     ips: seq<string>, version: int)
    requires m.geo.Valid() && m.geo.dbLoaded && m.geo.settings.geoipVersion == Some(version)
    requires !Truthy(Get(session, TimezoneKey))
    ensures m.Timezone(session, ips, version)
         == Ok(match LastQualifying(m.classifier, ips)
               case None => DefaultZone
               case Some(k) =>
                 if version == 1 then NoZone
                 else ZoneOf(m.geo.TimeZoneOfCity(ips[k]).value))
  {
    forall j | 0 <= j < |ips| && Qualifies(m.classifier, ips[j])
      ensures m.TzLookup(version, ips[j]).Ok?
    {
      LoadedLookupsAnswer(m, version, ips[j]);
    }
    TzLoopLastWins(m, ips, version, DefaultZone);
    var last := LastQualifying(m.classifier, ips);
    if last.Some? {
      LoadedLookupsAnswer(m, version, ips[last.value]);
    }
  }

  /** Under version 1 a request with any qualifying candidate and no stored timezone deactivates. */
  lemma Version1QualifyingCandidateDeactivates(m: EasyTimezoneMiddleware, session: map<string, string>,
                                               ips: seq<string>, hasUser: bool)
    requires m.geo.Valid() && m.geo.dbLoaded && m.geo.settings.geoipVersion == Some(1)
    requires !Truthy(Get(session, TimezoneKey))
    requires exists j :: 0 <= j < |ips| && Qualifies(m.classifier, ips[j])
    ensures m.Timezone(session, ips, 1) == Ok(NoZone)
    ensures m.Resolve(session, ips, 1, hasUser).events == [Deactivated]
    ensures Get(m.Resolve(session, ips, 1, hasUser).session, TimezoneKey) == Get(session, TimezoneKey)
  {
    LastCandidateDecidesTimezone(m, session, ips, 1);
  }

  /** A truthy stored timezone is used as it is: no candidate matters, it is re-activated and kept. */
  lemma StoredTimezoneKept(m: EasyTimezoneMiddleware, session: map<string, string>,
                           ips: seq<string>, version: int, hasUser: bool)
    requires Truthy(Get(session, TimezoneKey))
    ensures m.Timezone(session, ips, version) == Ok(Named(session[TimezoneKey]))
    ensures var res := m.Resolve(session, ips, version, hasUser);
      && TimezoneKey in res.session && res.session[TimezoneKey] == session[TimezoneKey]
      && |res.events| >= 1 && res.events[0] == Activated(session[TimezoneKey])
  {
  }

  /** Under any version but 2 a missing place becomes the middleware's default, whatever the candidates. */
  lemma PlaceDefaultUnlessVersion2(m: EasyTimezoneMiddleware, p: Place, session: map<string, string>,
                                   ips: seq<string>, version: int)
    requires version != 2
    ensures m.PlaceOf(p, session, ips, version)
         == Ok(if Truthy(Get(session, PlaceKey(p))) then Get(session, PlaceKey(p)) else Some(PlaceDefault(p)))
  {
  }

  /**
   * Under version 2, without a stored place, the first qualifying candidate is looked
   * up in the database; with none the middleware's default stays.
   */
  lemma FirstCandidateDecidesPlace(m: EasyTimezoneMiddleware, p: Place, session: map<string, string>,
                                   ips: seq<string>)
    requires m.geo.Valid() && m.geo.dbLoaded && m.geo.settings.geoipVersion == Some(2)
    requires !Truthy(Get(session, PlaceKey(p)))
    ensures var first := FirstQualifying(m.classifier, ips);
      && (first.None? ==> m.PlaceOf(p, session, ips, 2) == Ok(Some(PlaceDefault(p))))
      && (first.Some? ==>
            var found := m.geo.files.city(m.geo.Configured().value.database, ips[first.value]);
            m.PlaceOf(p, session, ips, 2)
            == Ok(match p
                  case Country => if found.None? then Some("IN") else found.value.countryIsoCode
                  case City => Some(if found.None? then "IN" else found.value.city)))
  {
  }

  /** Once the databases are loaded from the middleware's settings, a request never raises. */
  lemma ResolveNeverFailsOnceLoaded(m: EasyTimezoneMiddleware, session: map<string, string>,
                                    ips: seq<string>, version: int, hasUser: bool)
    requires m.geo.Valid() && m.geo.dbLoaded && m.geo.settings.geoipVersion == Some(version)
    ensures m.Resolve(session, ips, version, hasUser).outcome == Pass
  {
    if !Truthy(Get(session, TimezoneKey)) {
      LastCandidateDecidesTimezone(m, session, ips, version);
    }
    var first := FirstQualifying(m.classifier, ips);
    if version == 2 && first.Some? {
      LoadedLookupsAnswer(m, version, ips[first.value]);
    }
  }

  /** A request writes only the three keys, and removes none. */
  lemma OnlyThreeKeysChange(m: EasyTimezoneMiddleware, session: map<string, string>,
                            ips: seq<string>, version: int, hasUser: bool)
    ensures var res := m.Resolve(session, ips, version, hasUser);
      && session.Keys <= res.session.Keys
      && res.session.Keys <= session.Keys + {TimezoneKey, CountryKey, CityKey}
      && forall k :: k in session && k !in {TimezoneKey, CountryKey, CityKey} ==> res.session[k] == session[k]
  {
  }
}
