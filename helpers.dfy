/**
 * helpers.py: tri-state time-zone resolution, the list of zones whose time
 * zone differs from home, the per-entry signal name, the enable-by-default
 * rule, and the base entity with its availability rule and the per-entry
 * consumer counters.
 */
module Helpers {
  import opened Host
  import Nominatim

  const SIG_ENTITY_CHANGED: string := "entity_tz_entity_changed"

  /** A resolved time zone or location: "unavailable", no result (None), or a value. */
  datatype Resolved<+T> = Unavailable | NoResult | Found(value: T)

  /** The keys of the six derived entities. */
  datatype Key = Address | Country | LocalTime | TimeZone | DiffCountry | DiffTime

  function KeyName(k: Key): string {
    match k
    case Address => "address"
    case Country => "country"
    case LocalTime => "local_time"
    case TimeZone => "time_zone"
    case DiffCountry => "diff_country"
    case DiffTime => "diff_time"
  }

  /** What a derived entity depends on. */
  datatype Source = HaCfg | Time | Tz | Loc

  // ---------------------------------------------------------------------
  // Time-zone resolution

  /** `_get_tz_from_loc`: no name, or an exception from the finder, gives None. */
  function TzFromLoc(env: Env, lat: real, lng: real): (tz: Option<ZoneInfo>)
    ensures tz.Some? ==> env.timezoneAt(lat, lng).Named? &&
                         tz == env.getTimeZone(env.timezoneAt(lat, lng).name)
    ensures env.timezoneAt(lat, lng).Named? ==> tz == env.getTimeZone(env.timezoneAt(lat, lng).name)
    ensures !env.timezoneAt(lat, lng).Named? ==> tz == None
  {
    match env.timezoneAt(lat, lng)
    case Named(name) => env.getTimeZone(name)
    case NoName => None
    case LookupRaised => None
  }

  /** A person or device tracker that the host reports at home. */
  predicate AtHome(s: State) {
    (s.Domain() == PERSON || s.Domain() == DEVICE_TRACKER) && s.state == STATE_HOME
  }

  /** `get_tz`: the time zone of an entity state, as a tri-state. */
  function GetTz(env: Env, state: Option<State>): (r: Resolved<ZoneInfo>)
    ensures r == Unavailable <==> state.None? || (!AtHome(state.value) && !state.value.HasCoordinates())
  {
    if state.None? then Unavailable
    else
      var s := state.value;
      if AtHome(s) then Found(env.defaultZone)
      else
        var lat := s.Get(ATTR_LATITUDE);
        var lng := s.Get(ATTR_LONGITUDE);
        if lat.None? || lng.None? then Unavailable
        else match TzFromLoc(env, env.round4(lat.value), env.round4(lng.value))
          case None => NoResult
          case Some(tz) => Found(tz)
  }

  /** An absent state, or one without both coordinates, is "unavailable". */
  lemma MissingDataIsUnavailable(env: Env, state: Option<State>)
    requires state.None? || (!AtHome(state.value) && !state.value.HasCoordinates())
    ensures GetTz(env, state) == Unavailable
  {
  }

  /**
   * An entity at home resolves to the host's default zone, whatever its
   * coordinates and whatever the time-zone library would say.
   */
  lemma AtHomeIsDefaultZone(env: Env, s: State, attributes: map<string, real>, lookup: (real, real) -> TzLookup)
    requires AtHome(s)
    ensures GetTz(env, Some(s)) == Found(env.defaultZone)
    ensures GetTz(env.(timezoneAt := lookup), Some(s.(attributes := attributes))) == GetTz(env, Some(s))
  {
  }

  /** A lookup that finds no name or raises is "no result", not "unavailable". */
  lemma FailedLookupIsNoResult(env: Env, s: State)
    requires !AtHome(s) && s.HasCoordinates()
    requires !env.timezoneAt(env.round4(s.attributes[ATTR_LATITUDE]), env.round4(s.attributes[ATTR_LONGITUDE])).Named?
    ensures GetTz(env, Some(s)) == NoResult
  {
  }

  /** The zone a state away from home resolves to, through its rounded coordinates. */
  lemma LookupDecides(env: Env, s: State, z: ZoneInfo)
    requires !AtHome(s) && s.HasCoordinates()
    ensures var found := TzFromLoc(env, env.round4(s.attributes[ATTR_LATITUDE]), env.round4(s.attributes[ATTR_LONGITUDE]));
            && (GetTz(env, Some(s)) == Found(z) <==> found == Some(z))
            && (GetTz(env, Some(s)) == NoResult <==> found == None)
  {
    assert s.Get(ATTR_LATITUDE) == Some(s.attributes[ATTR_LATITUDE]);
    assert s.Get(ATTR_LONGITUDE) == Some(s.attributes[ATTR_LONGITUDE]);
  }

  /**
   * `not_ha_tz`: false for anything that is not a time zone ("unavailable",
   * no result); for a zone, whether its wall clock differs from home's.
   */
  function NotHaTz(env: Env, tz: Resolved<ZoneInfo>): (differs: bool)
    ensures !tz.Found? ==> !differs
    ensures tz.Found? ==> (differs <==> env.clockDiffers(tz.value))
  {
    tz.Found? && env.clockDiffers(tz.value)
  }

  // ---------------------------------------------------------------------
  // Zones whose time zone differs from home

  /** A zone entity whose resolved time zone differs from home. */
  predicate IsAwayZone(env: Env, s: State) {
    s.Domain() == ZONE && NotHaTz(env, GetTz(env, Some(s)))
  }

  /** The list comprehension of `update_zones`. */
  function ZonesOf(env: Env, states: seq<State>): seq<EntityId> {
    KeepIds(states, s => IsAwayZone(env, s))
  }

  /** The zone list holds exactly the zones whose time zone differs from home ... */
  lemma ZonesOfMembers(env: Env, states: seq<State>, id: EntityId)
    ensures id in ZonesOf(env, states) <==>
            exists i :: 0 <= i < |states| && states[i].entityId == id &&
                        states[i].Domain() == ZONE && NotHaTz(env, GetTz(env, Some(states[i])))
  {
    KeepIdsMembers(states, s => IsAwayZone(env, s), id);
  }

  /** ... in the host's order. */
  lemma ZonesOfInOrder(env: Env, states: seq<State>)
    ensures IsSubsequence(ZonesOf(env, states), IdsOf(states))
  {
    KeepIdsInOrder(states, s => IsAwayZone(env, s));
  }

  /** A person or tracker at home is never in a zone whose clock differs from home's. */
  lemma HomeNeverDiffers(env: Env, s: State)
    requires ValidEnv(env) && AtHome(s)
    ensures !NotHaTz(env, GetTz(env, Some(s)))
  {
  }

  /** A zone that resolves to the home zone is left off the list. */
  lemma DefaultZoneNotListed(env: Env, states: seq<State>, i: nat)
    requires ValidEnv(env)
    requires i < |states| && GetTz(env, Some(states[i])) == Found(env.defaultZone)
    requires forall j :: 0 <= j < |states| && states[j].entityId == states[i].entityId ==> j == i
    ensures states[i].entityId !in ZonesOf(env, states)
  {
    ZonesOfMembers(env, states, states[i].entityId);
  }

  /** The events update_zones listens to. */
  datatype Event =
    | CoreConfigUpdated(data: map<string, string>)
    | StateChanged(entityId: EntityId)   // its data always holds entity_id

  predicate HasData(e: Event) {
    match e
    case CoreConfigUpdated(data) => data != map[]
    case StateChanged(_) => true
  }

  /** `zones_filter`: only state changes of zone entities recompute the list. */
  function ZonesFilter(entityId: EntityId): (passes: bool)
    ensures passes <==> entityId.domain == ZONE
  {
    entityId.domain == ZONE
  }

  /** An event the filter drops concerns an entity that can never be on the zone list. */
  lemma FilteredOutNeverListed(env: Env, states: seq<State>, entityId: EntityId)
    requires !ZonesFilter(entityId)
    ensures entityId !in ZonesOf(env, states)
  {
    ZonesOfMembers(env, states, entityId);
  }

  /** ETZData: the integration's process-wide data. */
  class EtzData {
    var locAvailable: bool
    var locUsers: map<string, int>
    var tzUsers: map<string, int>
    var zones: seq<EntityId>

    constructor (locAvailable: bool)
      ensures this.locAvailable == locAvailable
      ensures locUsers == map[] && tzUsers == map[] && zones == []
    {
      this.locAvailable := locAvailable;
      locUsers := map[];
      tzUsers := map[];
      zones := [];
    }

    /** `update_zones`: an event without data changes nothing; otherwise recompute. */
    method UpdateZones(event: Option<Event>, env: Env, states: seq<State>)
      modifies this`zones
      ensures event.Some? && !HasData(event.value) ==> zones == old(zones)
      ensures event.None? || HasData(event.value) ==> zones == ZonesOf(env, states)
    {
      if event.Some? && !HasData(event.value) {
        return;
      }
      zones := ZonesOf(env, states);
    }

    /** A state-changed event on the bus, passed through `zones_filter`. */
    method OnStateChanged(entityId: EntityId, env: Env, states: seq<State>)
      modifies this`zones
      ensures zones == if entityId.domain == ZONE then ZonesOf(env, states) else old(zones)
    {
      if ZonesFilter(entityId) {
        UpdateZones(Some(StateChanged(entityId)), env, states);
      }
    }
  }

  /** hass.data[DOMAIN]: null until the first init_etz_data. */
  class DomainSlot {
    var etz: EtzData?

    constructor ()
      ensures etz == null
    {
      etz := null;
    }

    /**
     * `init_etz_data`: a no-op once the data exists; otherwise create it with
     * the shared geocoder's status, no consumers, and a freshly computed zone list.
     */
    method InitEtzData(nominatim: Nominatim.SharedNominatim, env: Env, states: seq<State>)
      modifies this, nominatim
      ensures old(etz) != null ==> etz == old(etz) && unchanged(nominatim)
      ensures old(etz) == null ==>
                && etz != null && fresh(etz)
                && (old(nominatim.data).Some? ==>
                      nominatim.data == old(nominatim.data) &&
                      etz.locAvailable == Nominatim.IsNomRecord(old(nominatim.data).value))
                && (old(nominatim.data).None? ==>
                      nominatim.data == Some(Nominatim.FreshRecord()) && etz.locAvailable)
                && etz.locUsers == map[] && etz.tzUsers == map[]
                && etz.zones == ZonesOf(env, states)
    {
      if etz != null {
        return;
      }
      var available := nominatim.InitNominatim();
      var data := new EtzData(available);
      data.UpdateZones(None, env, states);
      etz := data;
    }
  }

  // ---------------------------------------------------------------------
  // Signal name

  /** `signal`: the per-entry dispatcher channel. */
  function Signal(entryId: string): (name: string)
    ensures |name| == |SIG_ENTITY_CHANGED| + 1 + |entryId|
    ensures name[..|SIG_ENTITY_CHANGED|] == SIG_ENTITY_CHANGED && name[|SIG_ENTITY_CHANGED|] == '-'
    ensures name[|SIG_ENTITY_CHANGED| + 1..] == entryId
  {
    SIG_ENTITY_CHANGED + "-" + entryId
  }

  /** Recover the entry id from a signal name. */
  function SignalEntryId(name: string): Option<string> {
    var n := |SIG_ENTITY_CHANGED|;
    if |name| > n && name[..n] == SIG_ENTITY_CHANGED && name[n] == '-' then Some(name[n + 1..]) else None
  }

  lemma SignalRoundTrip(entryId: string)
    ensures SignalEntryId(Signal(entryId)) == Some(entryId)
  {
    var n := |SIG_ENTITY_CHANGED|;
    var s := Signal(entryId);
    assert s[..n] == SIG_ENTITY_CHANGED;
    assert s[n + 1..] == entryId;
  }

  /** Distinct entries listen on distinct channels. */
  lemma SignalInjective(a: string, b: string)
    requires a != b
    ensures Signal(a) != Signal(b)
  {
    SignalRoundTrip(a);
    SignalRoundTrip(b);
  }

  // ---------------------------------------------------------------------
  // Enabled by default

  const ALWAYS_DISABLED: set<Key> := {Address, Country, DiffCountry, DiffTime}

  /** The entry names a static time zone or a zone entity. */
  predicate StaticTzOrZone(data: EntryData) {
    data.timeZone.Some? || data.entityId.domain == ZONE
  }

  /** `_enable_entity` */
  function EnableEntity(key: Key, data: EntryData): (enabled: bool)
    ensures key in ALWAYS_DISABLED ==> !enabled
    ensures key == LocalTime ==> (enabled <==> StaticTzOrZone(data))
    ensures key == TimeZone ==> (enabled <==> !StaticTzOrZone(data))
  {
    if key in ALWAYS_DISABLED then false
    else
      var staticTzOrZone := StaticTzOrZone(data);
      if key == LocalTime then staticTzOrZone
      else
        assert key == TimeZone;
        !staticTzOrZone
  }

  /** Of the local-time and time-zone sensors, exactly one is enabled by default. */
  lemma ExactlyOneClockSensorEnabled(data: EntryData)
    ensures EnableEntity(LocalTime, data) != EnableEntity(TimeZone, data)
    ensures forall k :: EnableEntity(k, data) ==> k == LocalTime || k == TimeZone
  {
  }

  function UniqueId(entryId: string, key: Key): string {
    entryId + "-" + KeyName(key)
  }

  // ---------------------------------------------------------------------
  // Per-entry consumer counters

  /** The counter map after one consumer of `entryId` attaches (+1) or detaches (-1). */
  function Bump(users: map<string, int>, entryId: string, delta: int): (r: map<string, int>)
    requires entryId in users
    ensures r.Keys == users.Keys
    ensures r[entryId] == users[entryId] + delta
    ensures forall e :: e in users && e != entryId ==> r[e] == users[e]
  {
    users[entryId := users[entryId] + delta]
  }

  /** A detach undoes an attach. */
  lemma BumpUndone(users: map<string, int>, entryId: string)
    requires entryId in users
    ensures Bump(Bump(users, entryId, 1), entryId, -1) == users
  {
    var b := Bump(Bump(users, entryId, 1), entryId, -1);
    assert forall e :: e in users ==> b[e] == users[e];
  }

  /** An extra attribute of a derived sensor. */
  datatype ExtraValue = Text(s: string) | At(clock: Clock) | Hours(h: real)

  /** `_attr_extra_state_attributes`: one named attribute, possibly None. */
  datatype Extra = Extra(name: string, value: Option<ExtraValue>)

  datatype Icon = DiffCountryOff | DiffCountryOn | DiffTimeOff | DiffTimeOn

  predicate IsBinary(k: Key) { k == DiffCountry || k == DiffTime }

  /** ETZEntity: one derived entity of a config entry. */
  class EtzEntity {
    const key: Key
    const entryId: string
    const sources: set<Source>
    const uniqueId: string
    const enabledByDefault: bool
    var entLoc: Resolved<Location>
    var entTz: Resolved<ZoneInfo>
    var nativeValue: Option<string>   // sensors
    var isOn: Option<bool>            // binary sensors
    var extra: Option<Extra>
    var icon: Option<Icon>

    constructor (entry: ConfigEntry, key: Key, sources: set<Source>)
      ensures this.key == key && this.sources == sources && entryId == entry.entryId
      ensures uniqueId == UniqueId(entry.entryId, key)
      ensures enabledByDefault == EnableEntity(key, entry.data)
      ensures entLoc == NoResult && entTz == NoResult
      ensures nativeValue == None && isOn == None && extra == None && icon == None
    {
      this.key := key;
      this.sources := sources;
      entryId := entry.entryId;
      uniqueId := UniqueId(entry.entryId, key);
      enabledByDefault := EnableEntity(key, entry.data);
      entLoc := NoResult;
      entTz := NoResult;
      nativeValue := None;
      isOn := None;
      extra := None;
      icon := None;
    }

    /** `available`: false iff a declared source holds "unavailable". */
    predicate Available()
      reads this
      ensures !Available() <==> (Loc in sources && entLoc == Unavailable) || (Tz in sources && entTz == Unavailable)
      ensures sources <= {HaCfg, Time} ==> Available()
    {
      !(Loc in sources && entLoc.Unavailable?) && !(Tz in sources && entTz.Unavailable?)
    }

    /** Every declared location and time-zone source holds a real value. */
    predicate SourcesReal()
      reads this
    {
      (Loc in sources ==> entLoc.Found?) && (Tz in sources ==> entTz.Found?)
    }

    /** A real value is never "unavailable". */
    lemma RealSourcesAreAvailable()
      ensures SourcesReal() ==> Available()
    {
    }

    /** `entity_changed`: a dispatch on the entry's signal. */
    method EntityChanged(loc: Resolved<Location>, tz: Resolved<ZoneInfo>)
      modifies this`entLoc, this`entTz
      ensures entLoc == loc && entTz == tz
    {
      entLoc := loc;
      entTz := tz;
    }

    /**
     * `_sources_valid`: when available, the value is first reset to None
     * (`is_on` for binary sensors); when unavailable, nothing changes.
     */
    method SourcesValid() returns (ok: bool)
      modifies this`nativeValue, this`isOn
      ensures ok <==> Available() && SourcesReal()
      ensures !Available() ==> nativeValue == old(nativeValue) && isOn == old(isOn)
      ensures Available() && IsBinary(key) ==> isOn == None && nativeValue == old(nativeValue)
      ensures Available() && !IsBinary(key) ==> nativeValue == None && isOn == old(isOn)
    {
      if !Available() {
        return false;
      }
      if IsBinary(key) {
        isOn := None;
      } else {
        nativeValue := None;
      }
      if Loc in sources && !entLoc.Found? {
        return false;
      }
      if Tz in sources && !entTz.Found? {
        return false;
      }
      return true;
    }

    /** `async_added_to_hass`: count this entity as a consumer of its entry's data. */
    method AddedToHass(etzd: EtzData)
      requires Loc in sources ==> entryId in etzd.locUsers
      requires Tz in sources ==> entryId in etzd.tzUsers
      modifies etzd`locUsers, etzd`tzUsers
      ensures etzd.locUsers == if Loc in sources then Bump(old(etzd.locUsers), entryId, 1) else old(etzd.locUsers)
      ensures etzd.tzUsers == if Tz in sources then Bump(old(etzd.tzUsers), entryId, 1) else old(etzd.tzUsers)
    {
      var locUser := Loc in sources;
      var tzUser := Tz in sources;
      if locUser || tzUser {
        if locUser {
          etzd.locUsers := Bump(etzd.locUsers, entryId, 1);
        }
        if tzUser {
          etzd.tzUsers := Bump(etzd.tzUsers, entryId, 1);
        }
      }
    }

    /** `async_will_remove_from_hass`: the matching decrements. */
    method WillRemoveFromHass(etzd: EtzData)
      requires Loc in sources ==> entryId in etzd.locUsers
      requires Tz in sources ==> entryId in etzd.tzUsers
      modifies etzd`locUsers, etzd`tzUsers
      ensures etzd.locUsers == if Loc in sources then Bump(old(etzd.locUsers), entryId, -1) else old(etzd.locUsers)
      ensures etzd.tzUsers == if Tz in sources then Bump(old(etzd.tzUsers), entryId, -1) else old(etzd.tzUsers)
    {
      if Loc in sources {
        etzd.locUsers := Bump(etzd.locUsers, entryId, -1);
      }
      if Tz in sources {
        etzd.tzUsers := Bump(etzd.tzUsers, entryId, -1);
      }
    }
  }

  /** Attaching an entity and then removing it leaves every counter as it was. */
  method AttachThenRemove(e: EtzEntity, etzd: EtzData)
    requires Loc in e.sources ==> e.entryId in etzd.locUsers
    requires Tz in e.sources ==> e.entryId in etzd.tzUsers
    modifies etzd`locUsers, etzd`tzUsers
    ensures etzd.locUsers == old(etzd.locUsers) && etzd.tzUsers == old(etzd.tzUsers)
  {
    e.AddedToHass(etzd);
    e.WillRemoveFromHass(etzd);
    if Loc in e.sources {
      BumpUndone(old(etzd.locUsers), e.entryId);
    }
    if Tz in e.sources {
      BumpUndone(old(etzd.tzUsers), e.entryId);
    }
  }
}
