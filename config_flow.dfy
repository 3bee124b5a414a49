/**
 * config_flow.py: the user step that either creates an entry for the chosen
 * entity, titled after it, or lists the entities that may be chosen: those
 * with coordinates, not geo-location events, not already used by an entry,
 * and, for zones, only zones on the integration's zone list.
 */
module ConfigFlow {
  import opened Host
  import Integration

  // ---------------------------------------------------------------------
  // Which entities are offered

  /**
   * `_use_state`. The zone list is read only for a zone with coordinates;
   * when the list was never stored, that read raises.
   */
  function UseState(zones: Option<seq<EntityId>>, used: seq<EntityId>, state: Option<State>): (r: Call<bool>)
    ensures r.Raised? <==>
              state.Some? && state.value.Domain() == ZONE && state.value.HasCoordinates() && zones.None?
    ensures r == Returned(true) ==>
              && state.Some?
              && state.value.Domain() != GEO_LOCATION
              && state.value.HasCoordinates()
              && state.value.entityId !in used
    ensures r == Returned(true) && state.value.Domain() == ZONE ==> state.value.entityId in zones.value
  {
    if state.None? then Returned(false)
    else
      var s := state.value;
      if s.Domain() == GEO_LOCATION then Returned(false)
      else if s.Get(ATTR_LATITUDE).None? || s.Get(ATTR_LONGITUDE).None? then Returned(false)
      else if s.Domain() == ZONE && zones.None? then Raised
      else if s.Domain() == ZONE && s.entityId !in zones.value then Returned(false)
      else Returned(s.entityId !in used)
  }

  /** A state with coordinates that is not a geo-location event, not used, and (if a zone) listed, is offered. */
  lemma UseStateComplete(zones: Option<seq<EntityId>>, used: seq<EntityId>, s: State)
    requires s.Domain() != GEO_LOCATION && s.HasCoordinates() && s.entityId !in used
    requires s.Domain() == ZONE ==> zones.Some? && s.entityId in zones.value
    ensures UseState(zones, used, Some(s)) == Returned(true)
  {
  }

  /** `[entry.data[CONF_ENTITY_ID] for entry in ...]` */
  function UsedIds(entries: seq<EntryData>): seq<EntityId> {
    EntityIds(entries, (e: EntryData) => e.entityId)
  }

  predicate Offers(zones: Option<seq<EntityId>>, used: seq<EntityId>, s: State) {
    UseState(zones, used, Some(s)) == Returned(true)
  }

  /** The entity ids the form offers, in the host's order; Raised when `_use_state` raised. */
  function OfferedEntities(zones: Option<seq<EntityId>>, used: seq<EntityId>, states: seq<State>): Call<seq<EntityId>> {
    if exists i :: 0 <= i < |states| && UseState(zones, used, Some(states[i])).Raised? then Raised
    else Returned(KeepIds(states, s => Offers(zones, used, s)))
  }

  /** With the zone list stored, building the form never raises. */
  lemma StoredZonesNeverRaise(zones: seq<EntityId>, used: seq<EntityId>, states: seq<State>)
    ensures OfferedEntities(Some(zones), used, states).Returned?
  {
  }

  /** An id is offered iff some state with it passes `_use_state`. */
  lemma OfferedMembers(zones: Option<seq<EntityId>>, used: seq<EntityId>, states: seq<State>, id: EntityId)
    requires OfferedEntities(zones, used, states).Returned?
    ensures id in OfferedEntities(zones, used, states).value <==>
            exists i :: 0 <= i < |states| && states[i].entityId == id && Offers(zones, used, states[i])
  {
    KeepIdsMembers(states, s => Offers(zones, used, s), id);
  }

  /** An entity already wrapped by an entry is never offered again. */
  lemma UsedNeverOffered(zones: Option<seq<EntityId>>, entries: seq<EntryData>, states: seq<State>, k: nat)
    requires OfferedEntities(zones, UsedIds(entries), states).Returned?
    requires k < |entries|
    ensures entries[k].entityId !in OfferedEntities(zones, UsedIds(entries), states).value
  {
    OfferedMembers(zones, UsedIds(entries), states, entries[k].entityId);
  }

  /** Only listed zones are offered. */
  lemma OfferedZoneIsListed(zones: Option<seq<EntityId>>, used: seq<EntityId>, states: seq<State>, id: EntityId)
    requires OfferedEntities(zones, used, states).Returned?
    requires id.domain == ZONE && id in OfferedEntities(zones, used, states).value
    ensures zones.Some? && id in zones.value
  {
    OfferedMembers(zones, used, states, id);
  }

  /** The form lists entities in the host's order. */
  lemma OfferedInOrder(zones: Option<seq<EntityId>>, used: seq<EntityId>, states: seq<State>)
    requires OfferedEntities(zones, used, states).Returned?
    ensures IsSubsequence(OfferedEntities(zones, used, states).value, IdsOf(states))
  {
    KeepIdsInOrder(states, s => Offers(zones, used, s));
  }

  /**
   * With the zone list that `init_hass_data` stores, an offered zone is one
   * whose time zone is not the host's default.
   */
  lemma OfferedZoneNotDefault(env: Env, used: seq<EntityId>, states: seq<State>, id: EntityId)
    requires Integration.LegacyZones(env, states).Returned?
    requires OfferedEntities(Some(Integration.LegacyZones(env, states).value), used, states).Returned?
    requires id.domain == ZONE && id in OfferedEntities(Some(Integration.LegacyZones(env, states).value), used, states).value
    ensures exists i :: 0 <= i < |states| && states[i].entityId == id &&
                        Integration.GetTz(env, Some(states[i])) != Returned(Some(env.defaultZone))
  {
    var zones := Integration.LegacyZones(env, states).value;
    OfferedZoneIsListed(Some(zones), used, states, id);
    Integration.LegacyZonesMembers(env, states, id);
  }

  // ---------------------------------------------------------------------
  // Entry title

  /** Python truthiness of an optional string. */
  predicate Truthy(o: Option<string>) {
    o.Some? && o.value != ""
  }

  /** `_wrapped_entity_config_entry_title` */
  function EntryTitle(reg: Option<RegistryEntry>, state: Option<State>, id: EntityId): (title: string)
    ensures reg.Some? && Truthy(reg.value.name) ==> title == reg.value.name.value
    ensures title != "" || id.objectId == ""
  {
    if reg.Some? && Truthy(reg.value.name) then reg.value.name.value
    else if reg.Some? && Truthy(reg.value.originalName) then reg.value.originalName.value
    else if state.Some? && state.value.name != "" then state.value.name
    else id.objectId
  }

  /** The first truthy candidate, else the fallback. */
  function FirstTruthy(candidates: seq<Option<string>>, fallback: string): (r: string)
    ensures r == fallback || exists c :: c in candidates && Truthy(c) && r == c.value
  {
    if candidates == [] then fallback
    else if Truthy(candidates[0]) then candidates[0].value
    else FirstTruthy(candidates[1..], fallback)
  }

  /** The title is the first non-empty of: registry name, original name, state name; else the object id. */
  lemma EntryTitleIsFirstTruthy(reg: Option<RegistryEntry>, state: Option<State>, id: EntityId)
    ensures EntryTitle(reg, state, id) ==
            FirstTruthy([if reg.Some? then reg.value.name else None,
                         if reg.Some? then reg.value.originalName else None,
                         if state.Some? then Some(state.value.name) else None],
                        id.objectId)
  {
    var cs := [if reg.Some? then reg.value.name else None,
               if reg.Some? then reg.value.originalName else None,
               if state.Some? then Some(state.value.name) else None];
    var o := id.objectId;
    assert cs[1..][1..][1..] == [];
    assert FirstTruthy(cs[1..][1..], o) == if Truthy(cs[2]) then cs[2].value else o;
    assert FirstTruthy(cs[1..], o) == if Truthy(cs[1]) then cs[1].value else FirstTruthy(cs[1..][1..], o);
  }

  /** `hass.states.get`: the first state with the id. */
  function StateOf(states: seq<State>, id: EntityId): (r: Option<State>)
    ensures r.Some? ==> r.value in states && r.value.entityId == id
    ensures r.None? ==> forall i :: 0 <= i < |states| ==> states[i].entityId != id
  {
    if states == [] then None
    else if states[0].entityId == id then Some(states[0])
    else StateOf(states[1..], id)
  }

  // ---------------------------------------------------------------------
  // The user step

  datatype FlowResult = CreateEntry(title: string, data: EntryData) | ShowForm(entityIds: seq<EntityId>)

  /**
   * `async_step_user`. With input, the entry is created from it unchanged.
   * Without, the shared data is initialised and the form lists the offered
   * entities; an exception from either is not caught (Raised).
   */
  method StepUser(
    userInput: Option<EntryData>, hassData: Integration.LegacyDomainData, env: Env,
    states: seq<State>, entries: seq<EntryData>, registry: map<EntityId, RegistryEntry>)
    returns (r: Call<FlowResult>)
    modifies hassData
    ensures userInput.Some? ==> unchanged(hassData)
    ensures userInput.Some? ==>
              var id := userInput.value.entityId;
              r == Returned(CreateEntry(
                     EntryTitle(if id in registry then Some(registry[id]) else None, StateOf(states, id), id),
                     userInput.value))
    ensures userInput.None? ==> hassData.present
    ensures userInput.None? && old(hassData.present) ==> hassData.zones == old(hassData.zones)
    ensures userInput.None? && !old(hassData.present) ==>
              hassData.zones ==
                (if Integration.LegacyZones(env, states).Returned?
                 then Some(Integration.LegacyZones(env, states).value) else None)
    ensures userInput.None? && !old(hassData.present) && Integration.LegacyZones(env, states).Raised? ==> r.Raised?
    ensures userInput.None? && !(!old(hassData.present) && Integration.LegacyZones(env, states).Raised?) ==>
              r == (match OfferedEntities(hassData.zones, UsedIds(entries), states)
                    case Raised => Raised
                    case Returned(ids) => Returned(ShowForm(ids)))
  {
    if userInput.Some? {
      var id := userInput.value.entityId;
      var reg := if id in registry then Some(registry[id]) else None;
      var title := EntryTitle(reg, StateOf(states, id), id);
      return Returned(CreateEntry(title, userInput.value));
    }
    var wasPresent := hassData.present;
    hassData.InitHassData(env, states);
    if !wasPresent && Integration.LegacyZones(env, states).Raised? {
      return Raised;
    }
    var offered := OfferedEntities(hassData.zones, UsedIds(entries), states);
    match offered {
      case Raised => r := Raised;
      case Returned(ids) => r := Returned(ShowForm(ids));
    }
  }
}
