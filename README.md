# entity_tz in Dafny

A model of the decision rules of the Home Assistant custom integration
`entity_tz` ("Entity Time Zone"). For a chosen entity (a person, a device
tracker, a zone, anything with coordinates) the integration derives sensors:
its address, its country and country code, the local time and the time zone
where it is, and two binary sensors saying whether it is in another country
or another time zone than the host. Behind the host's glue sit small,
deterministic rules, and those are what the model states and proves:

- the tri-state time-zone resolution of `helpers.py` ("unavailable", no
  result, or a zone) and the older two-state one of `__init__.py`, kept apart;
- the list of zones whose time zone differs from home, in both versions, and
  the stateful objects that hold it (`EtzData`, `DomainSlot`,
  `LegacyDomainData`);
- the state-change listener's trigger and its single dispatch on the
  per-entry signal;
- the enable-by-default rule, availability and source validity of the base
  entity, and the per-entry consumer counters it bumps on attach and detach;
- the unique-id migration over the entity registry;
- each sensor's and binary sensor's creation, declared sources and update,
  including the local-time text ("HH:MM" without one leading zero, which
  parses back to the same time);
- the config flow's option filter, its entry-title fallback chain and the
  user step;
- the shared Nominatim geocoder record: its validation or creation, and the
  outcome classification and rate-limit wait ratchet of one request.

Modules follow the source files: `Host` (what the integration sees of Home
Assistant: states, config entries, registry entries, the libraries as values
of `Env`, an order-preserving filter and ASCII upper-casing), `Nominatim`
(`nominatim.py`), `Helpers` (`helpers.py`), `Integration` (`__init__.py`),
`Sensor` (`sensor.py`), `BinarySensor` (`binary_sensor.py`) and `ConfigFlow`
(`config_flow.py`). Objects whose fields the source updates in place are
classes with `modifies` frames; the rest are functions and lemmas.

Libraries and the clock are parameters: `Env` carries the time-zone finder
(`timezone_at`, which may name a zone, find none, or raise),
`dt_util.get_time_zone`, `round(x, 4)`, the host's default zone and the
wall-clock comparison inside `not_ha_tz`; the local-time sensor receives the
clock reading, the time-zone sensor the UTC offset, the different-country binary
sensor the host's configured country. The geocoding server is a script of replies, one
per request, so the retry after a rate-limited reply consumes the script and
terminates; a script that runs out while still retrying yields `Pending`.

Where the integration's documented behaviour and its code differ, the model
follows the code:

- `_sources_valid` resets the sensor's value (or `is_on`) only when the
  entity is available; when a source holds "unavailable" the old value stays
  (helpers.py lines 291-297). The update methods state exactly that.
- The listener of `__init__.py` dispatches on presence and coordinate
  changes only; there is no home/away trigger.
- `get_location` never reads or writes the geocode cache, so there is no
  cache in the model.
- This repository's `__init__.py` is an older version of the integration's setup
  module (two-state `get_tz`, zones compared with the default zone); the
  config flow's `init_hass_data` is that version's, so `ConfigFlow` reads the
  zone list kept by `Integration.LegacyDomainData`.

## Model

| member | source | states |
|---|---|---|
| `Host.State.Get` | custom_components/entity_tz/helpers.py:112-113 | `attributes.get(key)` is present exactly when the key is, with its value |
| `Host.KeepIdsMembers` | custom_components/entity_tz/helpers.py:151-155 | an id is in a comprehension's result iff some state carrying it passes the filter |
| `Host.KeepIdsInOrder` | custom_components/entity_tz/config_flow.py:76-82 | a comprehension's ids are a subsequence of the host's states, in order |
| `Host.Upper` | custom_components/entity_tz/sensor.py:66-68 | `upper()` keeps the length and upper-cases each letter, leaving other characters alone |
| `Host.UpperIdempotent` | custom_components/entity_tz/binary_sensor.py:48 | upper-casing an upper-cased code changes nothing |
| `Helpers.TzFromLoc` | custom_components/entity_tz/helpers.py:83-100 | when the finder names a zone, the zone `get_time_zone` gives for that name; no name or an exception gives None |
| `Helpers.GetTz` | custom_components/entity_tz/helpers.py:103-120 | "unavailable" exactly for an absent state, or one not at home lacking a coordinate |
| `Helpers.LookupDecides` | custom_components/entity_tz/helpers.py:103-120 | a state away from home with both coordinates resolves to zone z iff the lookup on the rounded coordinates gives z, and to "no result" iff that lookup gives none |
| `Helpers.NotHaTz` | custom_components/entity_tz/helpers.py:65-70 | false for "unavailable" and "no result"; for a zone, true iff its wall clock differs from home's |
| `Helpers.MissingDataIsUnavailable` | custom_components/entity_tz/helpers.py:103-115 | an absent state or missing latitude/longitude resolves to "unavailable", never None or a zone |
| `Helpers.AtHomeIsDefaultZone` | custom_components/entity_tz/helpers.py:107-111 | a person or tracker at home resolves to the default zone, independent of coordinates and of the finder |
| `Helpers.FailedLookupIsNoResult` | custom_components/entity_tz/helpers.py:89-100 | coordinates present but no name (or an exception) gives no result, distinct from "unavailable" |
| `Helpers.ZonesOfMembers` | custom_components/entity_tz/helpers.py:151-155 | the zone list holds exactly the zone-domain ids whose resolved zone satisfies `not_ha_tz` |
| `Helpers.ZonesOfInOrder` | custom_components/entity_tz/helpers.py:151-155 | the zone list keeps the host's order |
| `Helpers.HomeNeverDiffers` | custom_components/entity_tz/helpers.py:65-70 | on any host (the home zone's clock never differs from home's), a person or tracker at home is not in a different time zone |
| `Helpers.DefaultZoneNotListed` | custom_components/entity_tz/helpers.py:151-155 | on any host, a zone whose time zone is the home zone is not on the zone list |
| `Helpers.EtzData.UpdateZones` | custom_components/entity_tz/helpers.py:143-155 | an event with empty data leaves `zones` unchanged; otherwise `zones` becomes the recomputed list |
| `Helpers.ZonesFilter` | custom_components/entity_tz/helpers.py:157-165 | passes exactly the ids in the zone domain |
| `Helpers.FilteredOutNeverListed` | custom_components/entity_tz/helpers.py:151-165 | an event the filter drops is for an entity that can never be on the zone list |
| `Helpers.EtzData.OnStateChanged` | custom_components/entity_tz/helpers.py:157-169 | a state change recomputes the list iff the entity is in the zone domain |
| `Helpers.DomainSlot.InitEtzData` | custom_components/entity_tz/helpers.py:123-167 | a no-op once the data exists; otherwise new data with empty counters and the zone list, whose geocoder status is the corrected `init_nominatim`'s (existing record usable iff well formed; see Findings) |
| `Helpers.Signal` | custom_components/entity_tz/helpers.py:172-174 | the name is the changed-entity signal prefix, a '-', then the entry id |
| `Helpers.SignalRoundTrip` | custom_components/entity_tz/helpers.py:172-174 | the entry id can be read back from its signal name |
| `Helpers.SignalInjective` | custom_components/entity_tz/__init__.py:32-34 | distinct entry ids give distinct signal names |
| `Helpers.EnableEntity` | custom_components/entity_tz/helpers.py:177-188 | address, country and both binary sensors are never enabled; local time iff static zone or zone entity; time zone iff not |
| `Helpers.ExactlyOneClockSensorEnabled` | custom_components/entity_tz/helpers.py:181-188 | exactly one of local time and time zone is enabled, and no other key is |
| `Helpers.EtzEntity.constructor` | custom_components/entity_tz/helpers.py:209-228 | unique id "<entry id>-<key>", enabled default from the rule, sources as declared |
| `Helpers.EtzEntity.Available` | custom_components/entity_tz/helpers.py:230-237 | unavailable iff a declared location or zone source holds "unavailable"; an entity declaring only HA_CFG/TIME is always available |
| `Helpers.EtzEntity.RealSourcesAreAvailable` | custom_components/entity_tz/helpers.py:230-237 | an entity whose declared sources hold real values is available |
| `Helpers.EtzEntity.EntityChanged` | custom_components/entity_tz/helpers.py:244-250 | a dispatch stores the location and time zone it carries |
| `Helpers.EtzEntity.SourcesValid` | custom_components/entity_tz/helpers.py:288-304 | true iff available and every declared location/zone source is real; resets the value only when available |
| `Helpers.Bump` | custom_components/entity_tz/helpers.py:257-259 | one counter moves by delta; the key set and every other entry's counter stay |
| `Helpers.BumpUndone` | custom_components/entity_tz/helpers.py:279-286 | a decrement undoes an increment |
| `Helpers.EtzEntity.AddedToHass` | custom_components/entity_tz/helpers.py:252-259 | `loc_users[entry]` rises iff LOC is a source, `tz_users[entry]` iff TZ is; nothing else changes |
| `Helpers.EtzEntity.WillRemoveFromHass` | custom_components/entity_tz/helpers.py:279-286 | the same counters fall by one |
| `Helpers.AttachThenRemove` | custom_components/entity_tz/helpers.py:252-286 | attach then remove restores both counter maps |
| `Integration.GetTz` | custom_components/entity_tz/__init__.py:37-48 | raises exactly when the finder raises on present coordinates; with coordinates, None when the finder names no zone and `get_time_zone` of the name when it names one; a zone only with coordinates |
| `Integration.MissingDataIsNone` | custom_components/entity_tz/__init__.py:39-44 | an absent state or missing coordinates give None, there being no "unavailable" here |
| `Integration.Triggers` | custom_components/entity_tz/__init__.py:110-117 | fires when either state is missing; with both present, iff a coordinate differs |
| `Integration.TriggersSymmetric` | custom_components/entity_tz/__init__.py:110-117 | swapping old and new state does not change whether the event fires |
| `Integration.Listener` | custom_components/entity_tz/__init__.py:110-118 | no trigger, no dispatch; a trigger sends exactly one dispatch on the entry's signal carrying `get_tz(new_state)` |
| `Integration.SameCoordinatesNoDispatch` | custom_components/entity_tz/__init__.py:110-117 | both states present with equal coordinates: nothing is sent |
| `Integration.RemovedStateDispatchesNone` | custom_components/entity_tz/__init__.py:111-118 | a vanished state is reported once with no zone |
| `Integration.TrackerExamples` | custom_components/entity_tz/__init__.py:110-118 | an unrelated attribute change sends nothing; a latitude move sends one dispatch |
| `Integration.LegacyZonesMembers` | custom_components/entity_tz/__init__.py:68-74 | a zone is kept iff its `get_tz` result is not the default zone |
| `Integration.ZoneWithoutCoordinatesKept` | custom_components/entity_tz/__init__.py:71-73 | a zone without coordinates (None) is kept |
| `Integration.LegacyDomainData.UpdateZones` | custom_components/entity_tz/__init__.py:68-74 | the append loop stores the kept zones in order; a raising lookup stores nothing |
| `Integration.LegacyDomainData.InitHassData` | custom_components/entity_tz/__init__.py:51-81 | a no-op when the domain data exists; otherwise creates it and stores the zone list |
| `Integration.Migrated` | custom_components/entity_tz/__init__.py:92-97 | "-time_zone" is appended to a 32-lower-hex id of this platform; other entries are unchanged |
| `Integration.MigratedIdempotent` | custom_components/entity_tz/__init__.py:29 | a migrated id no longer matches, so migrating again changes nothing |
| `Integration.MigratedIdIsTimeZoneSensorId` | custom_components/entity_tz/__init__.py:90-96 | the migrated id is the unique id the time-zone sensor now uses |
| `Integration.MigrationIdempotent` | custom_components/entity_tz/__init__.py:92-97 | a second pass over the registry changes nothing |
| `Integration.EntityRegistry.MigrateUniqueIds` | custom_components/entity_tz/__init__.py:91-97 | the loop leaves every registry entry migrated and no entity added or dropped |
| `Sensor.AsyncSetupEntry` | custom_components/entity_tz/sensor.py:22-31 | a static zone gives only local time; otherwise address, country, local time, time zone in order, each with its declared sources, unique id "<entry>-<key>", enabled-by-default flag from `_enable_entity`, nothing received yet and no value or attribute |
| `Sensor.ExactlyOneSensorEnabled` | custom_components/entity_tz/sensor.py:28-31 | of the sensors an entry gets, exactly one is enabled by default |
| `Sensor.StaticEntryGetsLocalTimeOnly` | custom_components/entity_tz/sensor.py:28-29 | a static-zone entry gets the local-time sensor alone, and it is enabled |
| `Sensor.LocalTimeText` | custom_components/entity_tz/sensor.py:88-91 | length 4 or 5, 4 exactly before 10:00; a leading '0' remains only for hour 0 |
| `Sensor.LocalTimeRoundTrip` | custom_components/entity_tz/sensor.py:88-91 | the text parses back to the same hour and minute |
| `Sensor.MidnightHour` | custom_components/entity_tz/sensor.py:89-90 | hour 0 renders as "0:MM" |
| `Sensor.UpdateAddress` | custom_components/entity_tz/sensor.py:42-47 | the value is the location's address when valid, None when available but invalid, unchanged when unavailable |
| `Sensor.UpdateCountry` | custom_components/entity_tz/sensor.py:58-68 | `country_code` reset first; when valid, the value is the country and the attribute its upper-cased code |
| `Sensor.UpdateLocalTime` | custom_components/entity_tz/sensor.py:81-92 | `time` reset first; when valid, the value is the trimmed text of the zone's clock and the attribute that time |
| `Sensor.UpdateTimeZone` | custom_components/entity_tz/sensor.py:105-116 | `utc_offset` reset first; when valid, the value is the zone's name and the offset stays None when the zone has none |
| `BinarySensor.BinaryKeys` | custom_components/entity_tz/binary_sensor.py:28-30 | no binary sensors iff a static zone is configured |
| `BinarySensor.NoBinarySensorEnabled` | custom_components/entity_tz/helpers.py:49 | neither binary sensor is enabled by default |
| `BinarySensor.AsyncSetupEntry` | custom_components/entity_tz/binary_sensor.py:22-30 | diff_country then diff_time, or none for a static zone; each with its declared sources, unique id "<entry>-<key>", enabled-by-default flag from `_enable_entity`, nothing received yet and no state |
| `BinarySensor.DiffersFromHome` | custom_components/entity_tz/binary_sensor.py:47-50 | on iff the upper-cased code is not the host's country (an unset host country differs) |
| `BinarySensor.DiffersIgnoresCase` | custom_components/entity_tz/binary_sensor.py:48 | the code's letter case does not matter |
| `BinarySensor.UpdateDiffCountry` | custom_components/entity_tz/binary_sensor.py:41-52 | icon OFF first; on as the rule says when valid; icon ON iff available and on |
| `BinarySensor.UpdateDiffTime` | custom_components/entity_tz/binary_sensor.py:63-71 | on iff `not_ha_tz` of the entity's zone when valid; icon ON iff available and on |
| `ConfigFlow.UseState` | custom_components/entity_tz/config_flow.py:38-53 | accepted only with coordinates, outside geo_location, unused, and for a zone only if listed; raises only on a zone when no list is stored |
| `ConfigFlow.UseStateComplete` | custom_components/entity_tz/config_flow.py:38-53 | every state meeting those conditions is accepted |
| `Host.EntityIds` | custom_components/entity_tz/config_flow.py:72-75 | the entity id of each item, in order (the ids of the existing entries, and of the host's states) |
| `ConfigFlow.StoredZonesNeverRaise` | custom_components/entity_tz/config_flow.py:51 | with a zone list stored, building the options never raises |
| `ConfigFlow.OfferedMembers` | custom_components/entity_tz/config_flow.py:76-82 | an id is offered iff some state with it passes `_use_state` |
| `ConfigFlow.UsedNeverOffered` | custom_components/entity_tz/config_flow.py:53 | an entity already used by an entry is never offered |
| `ConfigFlow.OfferedZoneIsListed` | custom_components/entity_tz/config_flow.py:51-52 | a zone is offered only if it is on the zone list |
| `ConfigFlow.OfferedInOrder` | custom_components/entity_tz/config_flow.py:76-82 | options follow the host's state order |
| `ConfigFlow.OfferedZoneNotDefault` | custom_components/entity_tz/config_flow.py:51 | with the list `init_hass_data` stores, an offered zone's time zone is not the default |
| `ConfigFlow.EntryTitle` | custom_components/entity_tz/config_flow.py:22-35 | a non-empty registry name wins; the title is never empty when the object id is not |
| `ConfigFlow.EntryTitleIsFirstTruthy` | custom_components/entity_tz/config_flow.py:29-35 | the title is the first non-empty of name, original name, state name, else the object id |
| `ConfigFlow.StateOf` | custom_components/entity_tz/config_flow.py:31 | the state found carries the id; none found means no state carries it |
| `ConfigFlow.StepUser` | custom_components/entity_tz/config_flow.py:61-90 | input becomes the entry data unchanged with the derived title; without input, a first call stores the zone list `init_hass_data` computes (none when the lookup raises, and the flow raises), a later call keeps the stored list, and the form offers exactly `OfferedEntities` over the stored list |
| `Nominatim.RecordIffFields` | custom_components/entity_tz/nominatim.py:48-50 | a record is well formed iff every declared field is present with its type |
| `Nominatim.FreshRecord` | custom_components/entity_tz/nominatim.py:66 | the record a first init stores is well formed |
| `Nominatim.IsInstanceAsWritten` | custom_components/entity_tz/nominatim.py:49 | isinstance raises for the parameterized cache type and answers for the others |
| `Nominatim.CheckFieldsAsWritten` | custom_components/entity_tz/nominatim.py:47-54 | as written, the validation rejects every record |
| `Nominatim.CheckFields` | custom_components/entity_tz/nominatim.py:47-55 | corrected validation (see Findings): accepts exactly the well-formed records |
| `Nominatim.SharedNominatim.InitNominatimAsWritten` | custom_components/entity_tz/nominatim.py:43-68 | as written: existing data is untouched and always reported unusable; absent data becomes a fresh record with wait 1.5, reported usable |
| `Nominatim.SharedNominatim.InitNominatim` | custom_components/entity_tz/nominatim.py:43-68 | corrected validation (see Findings): existing data is untouched and usable iff well formed; absent data becomes a fresh record with wait 1.5 |
| `Nominatim.RaiseWait` | custom_components/entity_tz/nominatim.py:85-89 | the wait becomes a truthy larger retry_after, else stays; it never decreases |
| `Nominatim.OutcomePendingIffAllRateLimited` | custom_components/entity_tz/nominatim.py:82-94 | a request is still being retried iff every reply so far was a rate limit |
| `Nominatim.OutcomeIsFirstAnswer` | custom_components/entity_tz/nominatim.py:82-94 | otherwise it ends with the first reply that is not a rate limit: the server's location for a success, None for any other error |
| `Nominatim.Answer` | custom_components/entity_tz/nominatim.py:83-94 | a success answers the server's location, any other error None |
| `Nominatim.WaitNeverDecreases` | custom_components/entity_tz/nominatim.py:85-89 | over any run of retries, the wait never decreases |
| `Nominatim.WaitCoversRetryAfter` | custom_components/entity_tz/nominatim.py:85-91 | after the retries, the wait is at least every retry_after the server sent |
| `Nominatim.FirstReplyDecides` | custom_components/entity_tz/nominatim.py:82-94 | success returns the server's result, any other error None, neither retries or touches the wait |
| `Nominatim.RateLimitedRetries` | custom_components/entity_tz/nominatim.py:84-91 | a rate-limited reply is followed by a retry with the ratcheted wait |
| `Nominatim.SharedNominatim.Acquire` | custom_components/entity_tz/nominatim.py:81 | the lock is taken iff it was free, and is held afterwards |
| `Nominatim.SharedNominatim.ScheduleRelease` | custom_components/entity_tz/nominatim.py:75-78 | the background task releases the lock |
| `Nominatim.SharedNominatim.Ratchet` | custom_components/entity_tz/nominatim.py:85-89 | the saved record's wait is the ratcheted one, every other field as before |
| `Nominatim.SharedNominatim.GetLocationAsWritten` | custom_components/entity_tz/nominatim.py:71-96 | as written, a first rate-limited reply deadlocks with the lock held; other replies return their outcome and release |
| `Nominatim.SharedNominatim.GetLocation` | custom_components/entity_tz/nominatim.py:71-96 | with the release scheduled before each retry, never deadlocks: returns the request's outcome; the lock ends free unless the script ran out; the wait is the ratcheted one; other fields unchanged |

## Left out

- The host runtime: event bus subscriptions, dispatcher delivery, the entity registry's internals, config-entry lifecycle and platform forwarding (`async_setup_entry`, `async_unload_entry` of `__init__.py`), executor jobs and `async`/`await` scheduling. A dispatch is a recorded value; a listener call is a method call.
- External libraries and the network: TimezoneFinder, `available_timezones` (the `tzs` field, never read by the rules), `dt_util.get_time_zone`, the default zone, and geopy's `Nominatim.reverse` are uninterpreted (`Env` fields, or the script of server replies).
- Floating point: coordinates, waits and offsets are reals; `round(x, 4)` is an uninterpreted function, the offset's division by 3600 is not modelled (the time-zone sensor receives the offset in hours), and the coordinate string of `get_location` is not built.
- The wall clock: `not_ha_tz`'s comparison of local times is the predicate `clockDiffers`; the local-time sensor receives hour and minute, and its `time` attribute holds that time rather than a timezone-aware datetime.
- `lru_cache` memoisation of `_get_tz_from_loc`, logging and `format_exc`.
- The geocoder's `cache` field contents, `CACHE_SIZE` and `TIMEOUT`, and the geocoder's construction; the cache is never read by `get_location`.
- Timing: `asyncio.sleep(wait)` before the lock's release is not modelled; the release is scheduled, and the model lets the next acquisition see it.
- Nominatim.SharedNominatim.GetLocation: requires a well-formed record and a free lock; a second, concurrent caller waiting on the lock and `NomData(**data)` failing on a malformed record are not modelled.
- Nominatim.SharedNominatim.InitNominatim: uses the corrected field validation; the code as written is `InitNominatimAsWritten`, which reports every existing record unusable (see Findings).
- Helpers.DomainSlot.InitEtzData: builds on the corrected `InitNominatim`; with the code as written, the geocoder is reported unavailable whenever its record already exists, which happens when another component sharing the `sharable_nominatim` record stored it first.
- Nominatim.RaiseWait: a `retry_after` that is a Python int rather than a float is not distinguished.
- Helpers.EtzEntity.AddedToHass: requires the entry's counter keys to exist; the source would raise KeyError otherwise, and the code that creates the keys is not part of this model.
- Helpers.EtzEntity.WillRemoveFromHass: the same requirement as AddedToHass.
- Helpers.AttachThenRemove: the same requirement as AddedToHass.
- State attributes other than numbers (only latitude and longitude are read), and the host's derivation of a state's display name.
- Helpers.HomeNeverDiffers, Helpers.DefaultZoneNotListed: the wall-clock comparison is uninterpreted, so these hold for hosts satisfying `ValidEnv` (home's clock equals home's), the one fact about it that does not depend on the clock.
- Host.Upper: ASCII letters only; Unicode case mapping is not modelled.
- The listener's subscription to the configured entity (`async_track_state_change_event`) is assumed; the model takes the old and new states as inputs.
- ConfigFlow.StepUser: the entity id is taken as given; resolving a registry UUID (`async_validate_entity_id`) and building the voluptuous form schema are not modelled.
- Device info, translation keys, attribution text and the sensors' fixed icons; only the binary sensors' on/off icon choice is modelled.

## Findings

| source | as written | input that shows it | evidently intended | confidence | as-written member | corrected member |
|---|---|---|---|---|---|---|
| custom_components/entity_tz/nominatim.py:47-54 | each field is checked with `isinstance(value, field.type)`; the `cache` field's type is `dict[str, Location \| None]`, a parameterized generic, for which `isinstance` raises TypeError, which is caught and reported as bad data | a second `init_nominatim` finding the very record the first one stored | existing data is accepted iff every field is present with the right plain type | high, by Python's `isinstance` rules; not executed | `Nominatim.SharedNominatim.InitNominatimAsWritten` | `Nominatim.SharedNominatim.InitNominatim` |
| custom_components/entity_tz/nominatim.py:81-96 | after a rate-limited reply the function calls itself, which awaits `lock.acquire()` while the outer call still holds the lock; the release is scheduled only in `finally`, after the retry returns | any request whose first reply is `GeocoderRateLimited` | the request is retried once the lock can be taken again, with the wait raised | high, asyncio's lock is not re-entrant; not executed | `Nominatim.SharedNominatim.GetLocationAsWritten` | `Nominatim.SharedNominatim.GetLocation` |
