/**
 * __init__.py (the integration's setup module, in its older form): two-state
 * time-zone resolution, the zone list kept in the shared data, the
 * state-change listener's trigger and dispatch, and the unique-id migration.
 * The per-entry signal name is the one defined in Helpers.
 */
module Integration {
  import opened Host
  import Helpers

  const TZ_SUFFIX: string := "-time_zone"

  /**
   * `get_tz` (older): None for an absent state, missing coordinates, no name
   * or an unknown name; an exception from the finder is not caught.
   */
  function GetTz(env: Env, state: Option<State>): (r: Call<Option<ZoneInfo>>)
    ensures r.Raised? <==>
              state.Some? && state.value.HasCoordinates() &&
              env.timezoneAt(state.value.attributes[ATTR_LATITUDE], state.value.attributes[ATTR_LONGITUDE]).LookupRaised?
    ensures r.Returned? && r.value.Some? ==> state.Some? && state.value.HasCoordinates()
    ensures state.Some? && state.value.HasCoordinates() ==>
              var lookup := env.timezoneAt(state.value.attributes[ATTR_LATITUDE], state.value.attributes[ATTR_LONGITUDE]);
              && (lookup.NoName? ==> r == Returned(None))
              && (lookup.Named? ==> r == Returned(env.getTimeZone(lookup.name)))
  {
    if state.None? then Returned(None)
    else
      var lat := state.value.Get(ATTR_LATITUDE);
      var lng := state.value.Get(ATTR_LONGITUDE);
      if lat.None? || lng.None? then Returned(None)
      else match env.timezoneAt(lat.value, lng.value)
        case LookupRaised => Raised
        case NoName => Returned(None)
        case Named(name) => Returned(env.getTimeZone(name))
  }

  /** Missing data gives None; there is no "unavailable" answer in this version. */
  lemma MissingDataIsNone(env: Env, state: Option<State>)
    requires state.None? || !state.value.HasCoordinates()
    ensures GetTz(env, state) == Returned(None)
  {
  }

  // ---------------------------------------------------------------------
  // State-change listener

  /** Both coordinates read the same (including both absent). */
  predicate SameCoordinates(o: State, n: State) {
    n.Get(ATTR_LATITUDE) == o.Get(ATTR_LATITUDE) && n.Get(ATTR_LONGITUDE) == o.Get(ATTR_LONGITUDE)
  }

  /** The listener's condition: a state appeared or vanished, or a coordinate moved. */
  function Triggers(oldState: Option<State>, newState: Option<State>): (fires: bool)
    ensures oldState.None? || newState.None? ==> fires
    ensures oldState.Some? && newState.Some? ==> (fires <==> !SameCoordinates(oldState.value, newState.value))
  {
    || oldState.None?
    || newState.None?
    || newState.value.Get(ATTR_LATITUDE) != oldState.value.Get(ATTR_LATITUDE)
    || newState.value.Get(ATTR_LONGITUDE) != oldState.value.Get(ATTR_LONGITUDE)
  }

  /** One `async_dispatcher_send`: the channel and the time zone sent on it. */
  datatype Dispatch = Dispatch(signal: string, tz: Option<ZoneInfo>)

  /**
   * `sensor_state_listener`: the dispatches one state-changed event causes.
   * Raised means get_tz raised and nothing was sent.
   */
  function Listener(entryId: string, env: Env, oldState: Option<State>, newState: Option<State>): (r: Call<seq<Dispatch>>)
    ensures !Triggers(oldState, newState) ==> r == Returned([])
    ensures Triggers(oldState, newState) && GetTz(env, newState).Returned? ==>
              r == Returned([Dispatch(Helpers.Signal(entryId), GetTz(env, newState).value)])
    ensures r.Raised? <==> Triggers(oldState, newState) && GetTz(env, newState).Raised?
  {
    if Triggers(oldState, newState) then
      match GetTz(env, newState)
      case Raised => Raised
      case Returned(tz) => Returned([Dispatch(Helpers.Signal(entryId), tz)])
    else Returned([])
  }

  /** Whether an event fires does not depend on which of the two states is the old one. */
  lemma TriggersSymmetric(a: Option<State>, b: Option<State>)
    ensures Triggers(a, b) == Triggers(b, a)
  {
  }

  /** Both states present with equal coordinates: nothing is sent. */
  lemma SameCoordinatesNoDispatch(entryId: string, env: Env, o: State, n: State)
    requires n.Get(ATTR_LATITUDE) == o.Get(ATTR_LATITUDE)
    requires n.Get(ATTR_LONGITUDE) == o.Get(ATTR_LONGITUDE)
    ensures Listener(entryId, env, Some(o), Some(n)) == Returned([])
  {
  }

  /** A vanished state is reported once, with no time zone. */
  lemma RemovedStateDispatchesNone(entryId: string, env: Env, o: Option<State>)
    ensures Listener(entryId, env, o, None) == Returned([Dispatch(Helpers.Signal(entryId), None)])
  {
  }

  /**
   * A tracker at (40.0, -74.0) that is "not_home" changes only an unrelated
   * attribute: no dispatch. When its latitude then moves to 40.7, exactly
   * one dispatch goes out on the entry's channel.
   */
  lemma TrackerExamples(entryId: string, env: Env)
    requires !env.timezoneAt(40.7, -74.0).LookupRaised?
    ensures
      var id := EntityId(DEVICE_TRACKER, "phone");
      var o := State(id, "not_home", "Phone", map[ATTR_LATITUDE := 40.0, ATTR_LONGITUDE := -74.0]);
      var n := o.(attributes := o.attributes["battery" := 80.0]);
      var moved := o.(attributes := o.attributes[ATTR_LATITUDE := 40.7]);
      && Listener(entryId, env, Some(o), Some(n)) == Returned([])
      && Listener(entryId, env, Some(o), Some(moved)).Returned?
      && |Listener(entryId, env, Some(o), Some(moved)).value| == 1
      && Listener(entryId, env, Some(o), Some(moved)).value[0].signal == Helpers.Signal(entryId)
  {
    var id := EntityId(DEVICE_TRACKER, "phone");
    var o := State(id, "not_home", "Phone", map[ATTR_LATITUDE := 40.0, ATTR_LONGITUDE := -74.0]);
    var moved := o.(attributes := o.attributes[ATTR_LATITUDE := 40.7]);
    assert moved.Get(ATTR_LATITUDE) == Some(40.7) != o.Get(ATTR_LATITUDE);
    assert moved.attributes[ATTR_LONGITUDE] == -74.0;
  }

  // ---------------------------------------------------------------------
  // Zone list

  /** A zone stays in the list unless its time zone is the default one. */
  predicate KeepsZone(env: Env, s: State) {
    s.Domain() == ZONE && GetTz(env, Some(s)) != Returned(Some(env.defaultZone))
  }

  predicate RaisesOn(env: Env, s: State) {
    s.Domain() == ZONE && GetTz(env, Some(s)).Raised?
  }

  /** `update_zones` (older): the new zone list, or Raised when a lookup raised. */
  function LegacyZones(env: Env, states: seq<State>): Call<seq<EntityId>> {
    if exists i :: 0 <= i < |states| && RaisesOn(env, states[i]) then Raised
    else Returned(KeepIds(states, s => KeepsZone(env, s)))
  }

  /** A zone is kept iff its get_tz result is not the default zone ... */
  lemma LegacyZonesMembers(env: Env, states: seq<State>, id: EntityId)
    requires LegacyZones(env, states).Returned?
    ensures id in LegacyZones(env, states).value <==>
            exists i :: 0 <= i < |states| && states[i].entityId == id && states[i].Domain() == ZONE &&
                        GetTz(env, Some(states[i])) != Returned(Some(env.defaultZone))
  {
    KeepIdsMembers(states, s => KeepsZone(env, s), id);
  }

  /** ... so a zone without coordinates (None) is kept. */
  lemma ZoneWithoutCoordinatesKept(env: Env, states: seq<State>, i: nat)
    requires i < |states| && states[i].Domain() == ZONE && !states[i].HasCoordinates()
    requires LegacyZones(env, states).Returned?
    ensures states[i].entityId in LegacyZones(env, states).value
  {
    LegacyZonesMembers(env, states, states[i].entityId);
  }

  /** hass.data[DOMAIN] as this version keeps it. */
  class LegacyDomainData {
    var present: bool                   // DOMAIN in hass.data
    var zones: Option<seq<EntityId>>   // hass.data[DOMAIN]["zones"]

    constructor ()
      ensures !present && zones == None
    {
      present := false;
      zones := None;
    }

    /** The append loop of `update_zones`; a raising lookup leaves the list as it was. */
    method UpdateZones(env: Env, states: seq<State>)
      modifies this`zones
      ensures LegacyZones(env, states).Returned? ==> zones == Some(LegacyZones(env, states).value)
      ensures LegacyZones(env, states).Raised? ==> zones == old(zones)
    {
      ghost var keep := s => KeepsZone(env, s);
      var zs: seq<EntityId> := [];
      for i := 0 to |states|
        invariant forall j :: 0 <= j < i ==> !RaisesOn(env, states[j])
        invariant zs == KeepIds(states[..i], keep)
      {
        var s := states[i];
        assert states[..i + 1][..i] == states[..i];
        if s.Domain() == ZONE {
          var tz := GetTz(env, Some(s));
          if tz.Raised? {
            assert RaisesOn(env, states[i]);
            return;
          }
          if tz.value != Some(env.defaultZone) {
            zs := zs + [s.entityId];
          }
        }
      }
      assert states[..|states|] == states;
      zones := Some(zs);
    }

    /** `init_hass_data`: a no-op when the domain data already exists. */
    method InitHassData(env: Env, states: seq<State>)
      modifies this
      ensures old(present) ==> present && zones == old(zones)
      ensures !old(present) ==> present
      ensures !old(present) ==>
                zones == (if LegacyZones(env, states).Returned? then Some(LegacyZones(env, states).value) else None)
    {
      if present {
        return;
      }
      present := true;
      zones := None;
      UpdateZones(env, states);
    }
  }

  // ---------------------------------------------------------------------
  // Unique-id migration

  predicate IsLowerHex(c: char) {
    '0' <= c <= '9' || 'a' <= c <= 'f'
  }

  /** `_OLD_UNIQUE_ID.fullmatch`: exactly 32 lower-case hex digits. */
  predicate IsOldUniqueId(s: string) {
    |s| == 32 && forall i :: 0 <= i < |s| ==> IsLowerHex(s[i])
  }

  /** One registry entry after the migration. */
  function Migrated(e: RegistryEntry): (m: RegistryEntry)
    ensures m.(uniqueId := e.uniqueId) == e
    ensures e.platform == DOMAIN && IsOldUniqueId(e.uniqueId) ==> m.uniqueId == e.uniqueId + TZ_SUFFIX
    ensures !(e.platform == DOMAIN && IsOldUniqueId(e.uniqueId)) ==> m == e
  {
    if e.platform != DOMAIN then e
    else if IsOldUniqueId(e.uniqueId) then e.(uniqueId := e.uniqueId + TZ_SUFFIX)
    else e
  }

  /** A migrated id no longer matches the pattern, so migrating twice changes nothing. */
  lemma MigratedIdempotent(e: RegistryEntry)
    ensures Migrated(Migrated(e)) == Migrated(e)
  {
  }

  /** The old id was the entry id; the new one is the time-zone sensor's. */
  lemma MigratedIdIsTimeZoneSensorId(e: RegistryEntry, entryId: string)
    requires e.platform == DOMAIN && e.uniqueId == entryId && IsOldUniqueId(entryId)
    ensures Migrated(e).uniqueId == Helpers.UniqueId(entryId, Helpers.TimeZone)
  {
  }

  function MigratedAll(entities: map<EntityId, RegistryEntry>): (r: map<EntityId, RegistryEntry>)
    ensures r.Keys == entities.Keys
  {
    map id | id in entities :: Migrated(entities[id])
  }

  lemma MigrationIdempotent(entities: map<EntityId, RegistryEntry>)
    ensures MigratedAll(MigratedAll(entities)) == MigratedAll(entities)
  {
    forall id | id in entities {
      MigratedIdempotent(entities[id]);
    }
  }

  /** The entity registry: entity id to registry entry. */
  class EntityRegistry {
    var entities: map<EntityId, RegistryEntry>

    constructor (entities: map<EntityId, RegistryEntry>)
      ensures this.entities == entities
    {
      this.entities := entities;
    }

    /** The migration loop of `async_setup`, updating entries in place. */
    method MigrateUniqueIds()
      modifies this
      ensures entities == MigratedAll(old(entities))
    {
      var todo := entities.Keys;
      while todo != {}
        invariant todo <= entities.Keys
        invariant entities.Keys == old(entities).Keys
        invariant forall id :: id in entities && id !in todo ==> entities[id] == Migrated(old(entities)[id])
        invariant forall id :: id in todo ==> entities[id] == old(entities)[id]
        decreases todo
      {
        var id :| id in todo;
        var entity := entities[id];
        if entity.platform == DOMAIN && IsOldUniqueId(entity.uniqueId) {
          entities := entities[id := entity.(uniqueId := entity.uniqueId + TZ_SUFFIX)];
        }
        todo := todo - {id};
      }
    }
  }
}
