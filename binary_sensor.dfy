/**
 * binary_sensor.py: the "different country" and "different time" binary
 * sensors, which exist only for entries that follow an entity, and whose
 * icon shows "on" exactly when the sensor is on.
 */
module BinarySensor {
  import opened Host
  import opened Helpers

  /** The sources each binary sensor declares. */
  function Sources(k: Key): set<Source>
    requires IsBinary(k)
  {
    if k == DiffCountry then {Loc, HaCfg} else {Tz, HaCfg}
  }

  /** The binary sensors `async_setup_entry` creates, in order. */
  function BinaryKeys(data: EntryData): (keys: seq<Key>)
    ensures forall i :: 0 <= i < |keys| ==> IsBinary(keys[i])
    ensures keys == [] <==> data.timeZone.Some?
  {
    if data.timeZone.Some? then [] else [DiffCountry, DiffTime]
  }

  /** No binary sensor is enabled by default. */
  lemma NoBinarySensorEnabled(data: EntryData)
    ensures forall i :: 0 <= i < |BinaryKeys(data)| ==> !EnableEntity(BinaryKeys(data)[i], data)
  {
  }

  /** `async_setup_entry` of the binary-sensor platform. */
  method AsyncSetupEntry(entry: ConfigEntry) returns (entities: seq<EtzEntity>)
    ensures |entities| == |BinaryKeys(entry.data)|
    ensures forall i :: 0 <= i < |entities| ==>
              && fresh(entities[i])
              && entities[i].key == BinaryKeys(entry.data)[i]
              && entities[i].sources == Sources(entities[i].key)
              && entities[i].entryId == entry.entryId
              && entities[i].uniqueId == UniqueId(entry.entryId, entities[i].key)
              && entities[i].enabledByDefault == EnableEntity(entities[i].key, entry.data)
              && entities[i].entLoc == NoResult && entities[i].entTz == NoResult
              && entities[i].isOn == None
  {
    if entry.data.timeZone.Some? {
      return [];
    }
    var country := new EtzEntity(entry, DiffCountry, Sources(DiffCountry));
    var time := new EtzEntity(entry, DiffTime, Sources(DiffTime));
    entities := [country, time];
  }

  /**
   * The different-country rule: the location's country code, upper-cased,
   * is not the host's configured country (an unset country differs from all).
   */
  function DiffersFromHome(countryCode: string, haCountry: Option<string>): (differs: bool)
    ensures haCountry.None? ==> differs
    ensures haCountry.Some? ==> (differs <==> Upper(countryCode) != haCountry.value)
  {
    Some(Upper(countryCode)) != haCountry
  }

  /** A code written in either case compares the same. */
  lemma DiffersIgnoresCase(countryCode: string, haCountry: Option<string>)
    ensures DiffersFromHome(Upper(countryCode), haCountry) == DiffersFromHome(countryCode, haCountry)
  {
    UpperIdempotent(countryCode);
  }

  /** The different-country sensor's update; `haCountry` is the host's country setting. */
  method UpdateDiffCountry(e: EtzEntity, haCountry: Option<string>)
    requires e.key == DiffCountry && e.sources == Sources(DiffCountry)
    modifies e`nativeValue, e`isOn, e`icon
    ensures e.nativeValue == old(e.nativeValue)
    ensures e.Available() && e.entLoc.Found? ==>
              e.isOn == Some(DiffersFromHome(e.entLoc.value.countryCode, haCountry))
    ensures e.Available() && !e.entLoc.Found? ==> e.isOn == None
    ensures !e.Available() ==> e.isOn == old(e.isOn)
    ensures e.icon == Some(if e.Available() && e.isOn == Some(true) then DiffCountryOn else DiffCountryOff)
  {
    e.icon := Some(DiffCountryOff);
    var valid := e.SourcesValid();
    if !valid {
      return;
    }
    e.isOn := Some(Some(Upper(e.entLoc.value.countryCode)) != haCountry);
    if e.isOn == Some(true) {
      e.icon := Some(DiffCountryOn);
    }
  }

  /** The different-time sensor's update. */
  method UpdateDiffTime(e: EtzEntity, env: Env)
    requires e.key == DiffTime && e.sources == Sources(DiffTime)
    modifies e`nativeValue, e`isOn, e`icon
    ensures e.nativeValue == old(e.nativeValue)
    ensures e.Available() && e.entTz.Found? ==> e.isOn == Some(NotHaTz(env, e.entTz))
    ensures e.Available() && !e.entTz.Found? ==> e.isOn == None
    ensures !e.Available() ==> e.isOn == old(e.isOn)
    ensures e.icon == Some(if e.Available() && e.isOn == Some(true) then DiffTimeOn else DiffTimeOff)
  {
    e.icon := Some(DiffTimeOff);
    var valid := e.SourcesValid();
    if !valid {
      return;
    }
    e.isOn := Some(NotHaTz(env, e.entTz));
    if e.isOn == Some(true) {
      e.icon := Some(DiffTimeOn);
    }
  }
}
