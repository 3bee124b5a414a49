/**
 * sensor.py: which sensors a config entry gets, what each depends on, and
 * what each update writes: the address, the country and its upper-cased
 * code, the local time as "H:MM"/"HH:MM", and the time-zone name with its
 * UTC offset.
 */
module Sensor {
  import opened Host
  import opened Helpers

  const ATTR_COUNTRY_CODE: string := "country_code"
  const ATTR_TIME: string := "time"
  const ATTR_UTC_OFFSET: string := "utc_offset"

  /** The sources each sensor declares. */
  function Sources(k: Key): set<Source>
    requires !IsBinary(k)
  {
    match k
    case Address => {Loc}
    case Country => {Loc}
    case LocalTime => {Time, Tz}
    case TimeZone => {Tz}
  }

  /** The sensors `async_setup_entry` creates, in order. */
  function SensorKeys(data: EntryData): (keys: seq<Key>)
    ensures forall i :: 0 <= i < |keys| ==> !IsBinary(keys[i])
  {
    if data.timeZone.Some? then [LocalTime] else [Address, Country, LocalTime, TimeZone]
  }

  /** Exactly one of an entry's sensors is enabled by default. */
  lemma ExactlyOneSensorEnabled(data: EntryData)
    ensures var keys := SensorKeys(data);
            exists i :: 0 <= i < |keys| && EnableEntity(keys[i], data) &&
                        forall j :: 0 <= j < |keys| && j != i ==> !EnableEntity(keys[j], data)
  {
    var keys := SensorKeys(data);
    if data.timeZone.Some? {
      assert EnableEntity(keys[0], data);
    } else if StaticTzOrZone(data) {
      assert EnableEntity(keys[2], data);
    } else {
      assert EnableEntity(keys[3], data);
    }
  }

  /** A static-time-zone entry gets the local-time sensor alone, enabled. */
  lemma StaticEntryGetsLocalTimeOnly(data: EntryData)
    requires data.timeZone.Some?
    ensures SensorKeys(data) == [LocalTime] && EnableEntity(LocalTime, data)
  {
  }

  method NewSensor(entry: ConfigEntry, k: Key) returns (e: EtzEntity)
    requires !IsBinary(k)
    ensures fresh(e) && e.key == k && e.sources == Sources(k) && e.entryId == entry.entryId
    ensures e.enabledByDefault == EnableEntity(k, entry.data) && e.uniqueId == UniqueId(entry.entryId, k)
    ensures e.entLoc == NoResult && e.entTz == NoResult && e.nativeValue == None && e.extra == None
  {
    e := new EtzEntity(entry, k, Sources(k));
  }

  /** `async_setup_entry` of the sensor platform. */
  method AsyncSetupEntry(entry: ConfigEntry) returns (entities: seq<EtzEntity>)
    ensures |entities| == |SensorKeys(entry.data)|
    ensures forall i :: 0 <= i < |entities| ==>
              && fresh(entities[i])
              && entities[i].key == SensorKeys(entry.data)[i]
              && entities[i].sources == Sources(entities[i].key)
              && entities[i].entryId == entry.entryId
              && entities[i].uniqueId == UniqueId(entry.entryId, entities[i].key)
              && entities[i].enabledByDefault == EnableEntity(entities[i].key, entry.data)
              && entities[i].entLoc == NoResult && entities[i].entTz == NoResult
              && entities[i].nativeValue == None && entities[i].extra == None
  {
    if entry.data.timeZone.Some? {
      var localTime := NewSensor(entry, LocalTime);
      return [localTime];
    }
    var address := NewSensor(entry, Address);
    var country := NewSensor(entry, Country);
    var localTime := NewSensor(entry, LocalTime);
    var timeZone := NewSensor(entry, TimeZone);
    entities := [address, country, localTime, timeZone];
  }

  // ---------------------------------------------------------------------
  // Local time text

  function Digit(n: nat): char
    requires n < 10
  {
    ('0' as int + n) as char
  }

  predicate IsDigit(c: char) { '0' <= c <= '9' }

  function DigitValue(c: char): nat
    requires IsDigit(c)
  {
    c as int - '0' as int
  }

  function TwoDigits(n: nat): string
    requires n < 100
  {
    [Digit(n / 10), Digit(n % 10)]
  }

  /** `time.isoformat("minutes")`: "HH:MM". */
  function IsoMinutes(c: Clock): (s: string)
    ensures |s| == 5 && s[2] == ':'
  {
    TwoDigits(c.hour) + ":" + TwoDigits(c.minute)
  }

  /** The local-time sensor's text: "HH:MM" without one leading '0'. */
  function LocalTimeText(c: Clock): (s: string)
    ensures |s| == 4 || |s| == 5
    ensures |s| == 4 <==> c.hour < 10
    ensures s[0] == '0' ==> c.hour == 0
  {
    var value := IsoMinutes(c);
    if value[0] == '0' then value[1..] else value
  }

  /** Read back "H:MM" or "HH:MM". */
  function ParseClock(s: string): Option<Clock> {
    if |s| == 4 && IsDigit(s[0]) && s[1] == ':' && IsDigit(s[2]) && IsDigit(s[3]) then
      var m := 10 * DigitValue(s[2]) + DigitValue(s[3]);
      if m < 60 then Some(Clock(DigitValue(s[0]), m)) else None
    else if |s| == 5 && IsDigit(s[0]) && IsDigit(s[1]) && s[2] == ':' && IsDigit(s[3]) && IsDigit(s[4]) then
      var h := 10 * DigitValue(s[0]) + DigitValue(s[1]);
      var m := 10 * DigitValue(s[3]) + DigitValue(s[4]);
      if h < 24 && m < 60 then Some(Clock(h, m)) else None
    else None
  }

  /** The text gives back the same hour and minute. */
  lemma LocalTimeRoundTrip(c: Clock)
    ensures ParseClock(LocalTimeText(c)) == Some(c)
  {
    var s := LocalTimeText(c);
    var h1, h0 := c.hour / 10, c.hour % 10;
    var m1, m0 := c.minute / 10, c.minute % 10;
    assert DigitValue(Digit(h1)) == h1 && DigitValue(Digit(h0)) == h0;
    assert DigitValue(Digit(m1)) == m1 && DigitValue(Digit(m0)) == m0;
    if c.hour < 10 {
      assert s == [Digit(h0), ':', Digit(m1), Digit(m0)];
    } else {
      assert s == [Digit(h1), Digit(h0), ':', Digit(m1), Digit(m0)];
    }
  }

  /** Midnight's hour shows as a single "0". */
  lemma MidnightHour(m: Minute)
    ensures LocalTimeText(Clock(0, m)) == "0:" + TwoDigits(m)
  {
  }

  // ---------------------------------------------------------------------
  // Updates

  /** The address sensor's update. */
  method UpdateAddress(e: EtzEntity)
    requires e.key == Address && e.sources == Sources(Address)
    modifies e`nativeValue, e`isOn
    ensures e.isOn == old(e.isOn)
    ensures e.Available() && e.entLoc.Found? ==> e.nativeValue == Some(e.entLoc.value.address)
    ensures e.Available() && !e.entLoc.Found? ==> e.nativeValue == None
    ensures !e.Available() ==> e.nativeValue == old(e.nativeValue)
  {
    var valid := e.SourcesValid();
    if !valid {
      return;
    }
    e.nativeValue := Some(e.entLoc.value.address);
  }

  /** The country sensor's update: the country, and its code upper-cased. */
  method UpdateCountry(e: EtzEntity)
    requires e.key == Country && e.sources == Sources(Country)
    modifies e`nativeValue, e`isOn, e`extra
    ensures e.isOn == old(e.isOn)
    ensures e.extra.Some? && e.extra.value.name == ATTR_COUNTRY_CODE
    ensures e.Available() && e.entLoc.Found? ==>
              && e.nativeValue == Some(e.entLoc.value.country)
              && e.extra.value.value == Some(Text(Upper(e.entLoc.value.countryCode)))
    ensures !(e.Available() && e.entLoc.Found?) ==> e.extra.value.value == None
    ensures e.Available() && !e.entLoc.Found? ==> e.nativeValue == None
    ensures !e.Available() ==> e.nativeValue == old(e.nativeValue)
  {
    e.extra := Some(Extra(ATTR_COUNTRY_CODE, None));
    var valid := e.SourcesValid();
    if !valid {
      return;
    }
    var loc := e.entLoc.value;
    e.nativeValue := Some(loc.country);
    e.extra := Some(Extra(ATTR_COUNTRY_CODE, Some(Text(Upper(loc.countryCode)))));
  }

  /** The local-time sensor's update; `now` is the wall clock in a given zone. */
  method UpdateLocalTime(e: EtzEntity, now: ZoneInfo -> Clock)
    requires e.key == LocalTime && e.sources == Sources(LocalTime)
    modifies e`nativeValue, e`isOn, e`extra
    ensures e.isOn == old(e.isOn)
    ensures e.extra.Some? && e.extra.value.name == ATTR_TIME
    ensures e.Available() && e.entTz.Found? ==>
              && e.nativeValue == Some(LocalTimeText(now(e.entTz.value)))
              && e.extra.value.value == Some(At(now(e.entTz.value)))
    ensures !(e.Available() && e.entTz.Found?) ==> e.extra.value.value == None
    ensures e.Available() && !e.entTz.Found? ==> e.nativeValue == None
    ensures !e.Available() ==> e.nativeValue == old(e.nativeValue)
  {
    e.extra := Some(Extra(ATTR_TIME, None));
    var valid := e.SourcesValid();
    if !valid {
      return;
    }
    var dtNow := now(e.entTz.value);
    var value := IsoMinutes(dtNow);
    if value[0] == '0' {
      value := value[1..];
    }
    e.nativeValue := Some(value);
    e.extra := Some(Extra(ATTR_TIME, Some(At(dtNow))));
  }

  /**
   * The time-zone sensor's update: the zone's name, and its UTC offset in
   * hours when the zone reports one (`utcOffset` is the wall-clock lookup).
   */
  method UpdateTimeZone(e: EtzEntity, utcOffset: ZoneInfo -> Option<real>)
    requires e.key == TimeZone && e.sources == Sources(TimeZone)
    modifies e`nativeValue, e`isOn, e`extra
    ensures e.isOn == old(e.isOn)
    ensures e.extra.Some? && e.extra.value.name == ATTR_UTC_OFFSET
    ensures e.Available() && e.entTz.Found? ==>
              && e.nativeValue == Some(e.entTz.value.key)
              && e.extra.value.value ==
                   (if utcOffset(e.entTz.value).Some? then Some(Hours(utcOffset(e.entTz.value).value)) else None)
    ensures !(e.Available() && e.entTz.Found?) ==> e.extra.value.value == None
    ensures e.Available() && !e.entTz.Found? ==> e.nativeValue == None
    ensures !e.Available() ==> e.nativeValue == old(e.nativeValue)
  {
    e.extra := Some(Extra(ATTR_UTC_OFFSET, None));
    var valid := e.SourcesValid();
    if !valid {
      return;
    }
    var tz := e.entTz.value;
    e.nativeValue := Some(tz.key);
    var offset := utcOffset(tz);
    if offset.None? {
      return;
    }
    e.extra := Some(Extra(ATTR_UTC_OFFSET, Some(Hours(offset.value))));
  }
}
