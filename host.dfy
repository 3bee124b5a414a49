/**
 * What the entity_tz integration sees of its host: entity ids and state
 * snapshots, the time-zone and geocoding libraries (as values of `Env`),
 * config entries and entity-registry entries, plus two small building
 * blocks used by several core files: the order-preserving filter that the
 * source writes as list comprehensions, and ASCII `str.upper`.
 */
module Host {

  datatype Option<+T> = None | Some(value: T)

  /** The outcome of a call whose exception the caller does not catch. */
  datatype Call<+T> = Returned(value: T) | Raised

  const DOMAIN: string := "entity_tz"
  const ZONE: string := "zone"
  const PERSON: string := "person"
  const DEVICE_TRACKER: string := "device_tracker"
  const GEO_LOCATION: string := "geo_location"
  const STATE_HOME: string := "home"
  const ATTR_LATITUDE: string := "latitude"
  const ATTR_LONGITUDE: string := "longitude"

  /** An entity id "domain.object_id", kept as its two parts. */
  datatype EntityId = EntityId(domain: string, objectId: string)

  /**
   * A state snapshot. `name` is the display name the host derives for the
   * state; attribute values are numbers (only coordinates are read).
   */
  datatype State = State(entityId: EntityId, state: string, name: string, attributes: map<string, real>)
  {
    function Domain(): string { entityId.domain }

    /** `state.attributes.get(key)` */
    function Get(key: string): (v: Option<real>)
      ensures v.Some? <==> key in attributes
      ensures v.Some? ==> v.value == attributes[key]
    {
      if key in attributes then Some(attributes[key]) else None
    }

    predicate HasCoordinates() {
      Get(ATTR_LATITUDE).Some? && Get(ATTR_LONGITUDE).Some?
    }
  }

  /** A time-zone object; `str(tz)` is its key. */
  datatype ZoneInfo = ZoneInfo(key: string)

  type Hour = h: nat | h < 24
  type Minute = m: nat | m < 60

  /** The wall-clock time of day, to the minute. */
  datatype Clock = Clock(hour: Hour, minute: Minute)

  /** The part of a reverse-geocode result the sensors read. */
  datatype Location = Location(address: string, country: string, countryCode: string)

  /** What TimezoneFinder.timezone_at does for one point. */
  datatype TzLookup = Named(name: string) | NoName | LookupRaised

  /**
   * The libraries and host settings the rules consult, left uninterpreted:
   * TimezoneFinder.timezone_at, dt_util.get_time_zone, round(x, 4), the
   * host's default time zone, and the wall-clock comparison inside
   * not_ha_tz ("local time in this zone differs from local time at home").
   */
  datatype Env = Env(
    timezoneAt: (real, real) -> TzLookup,
    getTimeZone: string -> Option<ZoneInfo>,
    round4: real -> real,
    defaultZone: ZoneInfo,
    clockDiffers: ZoneInfo -> bool)

  /**
   * What holds of every host whatever the clock reads: `dt_util.now()` is
   * already in the default zone, so converting it there keeps its wall
   * clock, and the home zone never differs from home.
   */
  predicate ValidEnv(env: Env) {
    !env.clockDiffers(env.defaultZone)
  }

  /** A config entry's data: `{entity_id}` or `{entity_id, time_zone}`. */
  datatype EntryData = EntryData(entityId: EntityId, timeZone: Option<string>)

  datatype ConfigEntry = ConfigEntry(entryId: string, title: string, data: EntryData)

  datatype RegistryEntry = RegistryEntry(
    entityId: EntityId, platform: string, uniqueId: string,
    name: Option<string>, originalName: Option<string>)

  /** The entity id of each item, in order. */
  function EntityIds<T>(items: seq<T>, idOf: T -> EntityId): (ids: seq<EntityId>)
    ensures |ids| == |items|
    ensures forall i :: 0 <= i < |items| ==> ids[i] == idOf(items[i])
  {
    seq(|items|, i requires 0 <= i < |items| => idOf(items[i]))
  }

  function IdsOf(states: seq<State>): seq<EntityId> {
    EntityIds(states, (s: State) => s.entityId)
  }

  /** `[state.entity_id for state in states if keep(state)]` */
  function KeepIds(states: seq<State>, keep: State -> bool): (ids: seq<EntityId>)
    ensures |ids| <= |states|
  {
    if states == [] then []
    else
      var last := states[|states| - 1];
      KeepIds(states[..|states| - 1], keep) + (if keep(last) then [last.entityId] else [])
  }

  /** An id is kept iff some state carrying it passes the filter. */
  lemma {:induction false} KeepIdsMembers(states: seq<State>, keep: State -> bool, id: EntityId)
    ensures id in KeepIds(states, keep) <==>
            exists i :: 0 <= i < |states| && keep(states[i]) && states[i].entityId == id
  {
    if states != [] {
      var n := |states| - 1;
      KeepIdsMembers(states[..n], keep, id);
      if id in KeepIds(states, keep) && id !in KeepIds(states[..n], keep) {
        assert keep(states[n]) && states[n].entityId == id;
      }
      if exists i :: 0 <= i < |states| && keep(states[i]) && states[i].entityId == id {
        var i :| 0 <= i < |states| && keep(states[i]) && states[i].entityId == id;
        if i < n {
          assert states[..n][i] == states[i];
        }
      }
    }
  }

  /** `xs` is `ys` with some elements dropped and the rest in their order. */
  ghost predicate IsSubsequence<T>(xs: seq<T>, ys: seq<T>)
    decreases |ys|
  {
    if xs == [] then true
    else if ys == [] then false
    else
      (xs[|xs| - 1] == ys[|ys| - 1] && IsSubsequence(xs[..|xs| - 1], ys[..|ys| - 1]))
      || IsSubsequence(xs, ys[..|ys| - 1])
  }

  /** The filter keeps the host's order. */
  lemma {:induction false} KeepIdsInOrder(states: seq<State>, keep: State -> bool)
    ensures IsSubsequence(KeepIds(states, keep), IdsOf(states))
  {
    if states != [] {
      var n := |states| - 1;
      KeepIdsInOrder(states[..n], keep);
      assert IdsOf(states)[..n] == IdsOf(states[..n]);
      var ks := KeepIds(states, keep);
      if keep(states[n]) {
        assert ks[..|ks| - 1] == KeepIds(states[..n], keep);
      } else {
        assert ks == KeepIds(states[..n], keep);
      }
    }
  }

  predicate IsLower(c: char) { 'a' <= c <= 'z' }

  function UpperChar(c: char): (u: char)
    ensures !IsLower(u)
    ensures IsLower(c) ==> 'A' <= u <= 'Z' && u as int == c as int - 32
    ensures !IsLower(c) ==> u == c
  {
    if IsLower(c) then (c as int - 32) as char else c
  }

  /** `s.upper()` on ASCII text. */
  function Upper(s: string): (u: string)
    ensures |u| == |s|
    ensures forall i :: 0 <= i < |s| ==> u[i] == UpperChar(s[i])
  {
    if s == [] then [] else [UpperChar(s[0])] + Upper(s[1..])
  }

  /** Upper-casing twice is upper-casing once. */
  lemma UpperIdempotent(s: string)
    ensures Upper(Upper(s)) == Upper(s)
  {
    var u := Upper(s);
    assert forall i :: 0 <= i < |u| ==> Upper(u)[i] == u[i];
  }
}
