/**
 * The shared Nominatim reverse-geocoder record (nominatim.py): validating or
 * creating it, and the outcome classification and wait ratchet of one
 * reverse-geocode request.
 *
 * The record lives in the host's shared data under "sharable_nominatim" as a
 * dictionary from field name to Python value; `PyValue` gives those values
 * the types the code tests for. The asyncio lock is a `LockV` value whose
 * `held` flag says whether the current chain of calls holds it. The server is
 * a script of replies, one per request, so the otherwise unbounded retry
 * consumes the script and terminates.
 */
module Nominatim {
  import opened Host

  const NOMINATIM_DATA: string := "sharable_nominatim"
  const INITIAL_WAIT: real := 1.5

  datatype PyValue =
    | DictV(size: nat)
    | LockV(held: bool)
    | GeocoderV
    | FloatV(x: real)
    | IntV(i: int)
    | TextV(s: string)
    | NoneV

  /** The declared types of NomData's fields. */
  datatype FieldType = CacheDict | AsyncLock | Geocoder | Float

  /** `fields(NomData)`, in declaration order. */
  const FIELDS: seq<(string, FieldType)> :=
    [("cache", CacheDict), ("lock", AsyncLock), ("nominatim", Geocoder), ("wait", Float)]

  /** `isinstance(v, t)` for the plain class behind each declared type. */
  predicate HasType(v: PyValue, t: FieldType) {
    match t
    case CacheDict => v.DictV?
    case AsyncLock => v.LockV?
    case Geocoder => v.GeocoderV?
    case Float => v.FloatV?
  }

  predicate FieldOk(m: map<string, PyValue>, f: (string, FieldType)) {
    f.0 in m && HasType(m[f.0], f.1)
  }

  /** A well-formed shared record: every field present with its type. */
  predicate IsNomRecord(m: map<string, PyValue>) {
    && "cache" in m && m["cache"].DictV?
    && "lock" in m && m["lock"].LockV?
    && "nominatim" in m && m["nominatim"].GeocoderV?
    && "wait" in m && m["wait"].FloatV?
  }

  /** The record is exactly what the field-by-field check accepts. */
  lemma RecordIffFields(m: map<string, PyValue>)
    ensures IsNomRecord(m) <==> forall j :: 0 <= j < |FIELDS| ==> FieldOk(m, FIELDS[j])
  {
    assert FieldOk(m, FIELDS[0]) <==> "cache" in m && m["cache"].DictV?;
    assert FieldOk(m, FIELDS[1]) <==> "lock" in m && m["lock"].LockV?;
    assert FieldOk(m, FIELDS[2]) <==> "nominatim" in m && m["nominatim"].GeocoderV?;
    assert FieldOk(m, FIELDS[3]) <==> "wait" in m && m["wait"].FloatV?;
  }

  /** What a first init_nominatim stores: empty cache, free lock, wait 1.5 s. */
  function FreshRecord(): (m: map<string, PyValue>)
    ensures IsNomRecord(m)
  {
    map["cache" := DictV(0), "lock" := LockV(false), "nominatim" := GeocoderV, "wait" := FloatV(INITIAL_WAIT)]
  }

  function WaitOf(m: map<string, PyValue>): real
    requires IsNomRecord(m)
  {
    m["wait"].x
  }

  predicate LockHeld(m: map<string, PyValue>)
    requires IsNomRecord(m)
  {
    m["lock"].held
  }

  /**
   * `isinstance(v, field.type)` as the source evaluates it. The cache field is
   * declared `dict[str, Location | None]`, a parameterized generic, and
   * isinstance raises TypeError for such a second argument whatever `v` is.
   */
  function IsInstanceAsWritten(v: PyValue, t: FieldType): (r: Call<bool>)
    ensures r.Raised? <==> t == CacheDict
    ensures r.Returned? ==> (r.value <==> HasType(v, t))
  {
    if t == CacheDict then Raised else Returned(HasType(v, t))
  }

  /**
   * The validation loop of init_nominatim as written: a missing field
   * (KeyError) or a failed or raising isinstance (TypeError) rejects. Since the
   * first field's check always raises, every existing record is rejected.
   */
  method CheckFieldsAsWritten(m: map<string, PyValue>) returns (ok: bool)
    ensures !ok
  {
    ok := true;
    var i := 0;
    while ok && i < |FIELDS|
      invariant 0 <= i <= |FIELDS|
      invariant ok ==> i == 0
    {
      var (name, t) := FIELDS[i];
      if name !in m {
        ok := false;
      } else {
        match IsInstanceAsWritten(m[name], t)
        case Raised => ok := false;
        case Returned(isInstance) => ok := isInstance;
      }
      i := i + 1;
    }
  }

  /** The validation loop with isinstance applied to each field's plain class. */
  method CheckFields(m: map<string, PyValue>) returns (ok: bool)
    ensures ok <==> IsNomRecord(m)
  {
    ok := true;
    var i := 0;
    while ok && i < |FIELDS|
      invariant 0 <= i <= |FIELDS|
      invariant ok <==> forall j :: 0 <= j < i ==> FieldOk(m, FIELDS[j])
    {
      var (name, t) := FIELDS[i];
      if name !in m {
        ok := false;
      } else {
        ok := HasType(m[name], t);
      }
      i := i + 1;
    }
    RecordIffFields(m);
  }

  /** One server reply to `Nominatim.reverse`. */
  datatype Reply =
    | Reversed(loc: Option<Location>)        // the request succeeded
    | RateLimited(retryAfter: Option<real>)  // GeocoderRateLimited
    | RequestError                           // any other exception

  /** What get_location returns. */
  datatype Lookup =
    | Done(loc: Option<Location>)
    | Pending     // the script ended while the request was still being retried
    | Deadlocked  // the call waits for a lock its own caller holds

  /** The wait after a rate-limited reply: raised to a truthy larger retry_after. */
  function RaiseWait(wait: real, retryAfter: Option<real>): (w: real)
    ensures w >= wait
    ensures w == wait || (retryAfter.Some? && w == retryAfter.value)
    ensures retryAfter.Some? && retryAfter.value > wait && retryAfter.value != 0.0 ==> w == retryAfter.value
  {
    if retryAfter.Some? && retryAfter.value != 0.0 && retryAfter.value > wait then retryAfter.value else wait
  }

  /** The result of a request retried after every rate-limited reply. */
  function Outcome(replies: seq<Reply>): (r: Lookup)
    ensures r != Deadlocked
  {
    if replies == [] then Pending
    else match replies[0]
      case Reversed(loc) => Done(loc)
      case RequestError => Done(None)
      case RateLimited(_) => Outcome(replies[1..])
  }

  /** The wait after the rate-limited replies that one request consumes. */
  function WaitAfter(wait: real, replies: seq<Reply>): real
    decreases |replies|
  {
    if replies == [] || !replies[0].RateLimited? then wait
    else WaitAfter(RaiseWait(wait, replies[0].retryAfter), replies[1..])
  }

  /** The wait never decreases. */
  lemma {:induction false} WaitNeverDecreases(wait: real, replies: seq<Reply>)
    ensures WaitAfter(wait, replies) >= wait
    decreases |replies|
  {
    if replies != [] && replies[0].RateLimited? {
      WaitNeverDecreases(RaiseWait(wait, replies[0].retryAfter), replies[1..]);
    }
  }

  /** After retrying, the wait covers every retry_after the server sent. */
  lemma {:induction false} WaitCoversRetryAfter(wait: real, replies: seq<Reply>, k: nat)
    requires wait >= 0.0
    requires k < |replies|
    requires forall j :: 0 <= j <= k ==> replies[j].RateLimited?
    requires replies[k].retryAfter.Some?
    ensures WaitAfter(wait, replies) >= replies[k].retryAfter.value
    decreases k
  {
    var w' := RaiseWait(wait, replies[0].retryAfter);
    if k == 0 {
      WaitNeverDecreases(w', replies[1..]);
    } else {
      WaitCoversRetryAfter(w', replies[1..], k - 1);
    }
  }

  /** A request that is not rate limited is answered at once and is not retried. */
  lemma FirstReplyDecides(replies: seq<Reply>)
    requires replies != [] && !replies[0].RateLimited?
    ensures Outcome(replies) == Done(if replies[0].Reversed? then replies[0].loc else None)
    ensures forall w :: WaitAfter(w, replies) == w
  {
  }

  /** Every reply in the script is a rate limit. */
  predicate AllRateLimited(replies: seq<Reply>) {
    forall i :: 0 <= i < |replies| ==> replies[i].RateLimited?
  }

  /** What a reply that is not a rate limit answers: the server's result, or no location. */
  function Answer(reply: Reply): (loc: Option<Location>)
    requires !reply.RateLimited?
    ensures reply.RequestError? ==> loc == None
    ensures reply.Reversed? ==> loc == reply.loc
  {
    if reply.Reversed? then reply.loc else None
  }

  /** A request is still being retried exactly when every reply so far was a rate limit. */
  lemma {:induction false} OutcomePendingIffAllRateLimited(replies: seq<Reply>)
    ensures Outcome(replies) == Pending <==> AllRateLimited(replies)
    decreases |replies|
  {
    if replies != [] {
      OutcomePendingIffAllRateLimited(replies[1..]);
      if replies[0].RateLimited? {
        assert forall i :: 1 <= i < |replies| ==> replies[i] == replies[1..][i - 1];
      }
    }
  }

  /** A request ends with the answer of the first reply that is not a rate limit. */
  lemma {:induction false} OutcomeIsFirstAnswer(replies: seq<Reply>, k: nat)
    requires k < |replies| && !replies[k].RateLimited?
    requires forall j :: 0 <= j < k ==> replies[j].RateLimited?
    ensures Outcome(replies) == Done(Answer(replies[k]))
    decreases k
  {
    if k > 0 {
      OutcomeIsFirstAnswer(replies[1..], k - 1);
    }
  }

  /** A rate-limited reply is followed by the next reply in the script, after the wait is raised. */
  lemma RateLimitedRetries(replies: seq<Reply>, wait: real)
    requires replies != [] && replies[0].RateLimited?
    ensures Outcome(replies) == Outcome(replies[1..])
    ensures WaitAfter(wait, replies) == WaitAfter(RaiseWait(wait, replies[0].retryAfter), replies[1..])
  {
  }

  /** hass.data["sharable_nominatim"]: absent, or the shared record. */
  class SharedNominatim {
    var data: Option<map<string, PyValue>>

    constructor (data: Option<map<string, PyValue>>)
      ensures this.data == data
    {
      this.data := data;
    }

    /**
     * init_nominatim as written: existing data is never touched and, since
     * the validation rejects every record, is always reported unusable;
     * absent data is replaced by a fresh record.
     */
    method InitNominatimAsWritten() returns (ok: bool)
      modifies this
      ensures old(data).Some? ==> data == old(data) && !ok
      ensures old(data).None? ==> data == Some(FreshRecord()) && ok
    {
      if data.Some? {
        ok := CheckFieldsAsWritten(data.value);
        return;
      }
      data := Some(FreshRecord());
      ok := true;
    }

    /**
     * init_nominatim with the corrected validation: existing data is never
     * touched and is usable iff it is a well-formed record; absent data is
     * replaced by a fresh record.
     */
    method InitNominatim() returns (ok: bool)
      modifies this
      ensures old(data).Some? ==> data == old(data) && (ok <==> IsNomRecord(old(data).value))
      ensures old(data).None? ==> data == Some(FreshRecord()) && ok
    {
      if data.Some? {
        ok := CheckFields(data.value);
        return;
      }
      data := Some(FreshRecord());
      ok := true;
    }

    /** `await lock.acquire()`: fails (waits forever) when this call chain holds it. */
    method Acquire() returns (acquired: bool)
      requires data.Some? && IsNomRecord(data.value)
      modifies this
      ensures acquired <==> !old(LockHeld(data.value))
      ensures data == Some(old(data.value)["lock" := LockV(true)])
    {
      acquired := !data.value["lock"].held;
      data := Some(data.value["lock" := LockV(true)]);
    }

    /** The background limit_rate task: release the lock once `wait` has passed. */
    method ScheduleRelease()
      requires data.Some? && IsNomRecord(data.value)
      modifies this
      ensures data == Some(old(data.value)["lock" := LockV(false)])
    {
      data := Some(data.value["lock" := LockV(false)]);
    }

    /** Raise the shared wait after a rate-limited reply, saving the record. */
    method Ratchet(retryAfter: Option<real>)
      requires data.Some? && IsNomRecord(data.value)
      modifies this
      ensures data == Some(old(data.value)["wait" := FloatV(RaiseWait(WaitOf(old(data.value)), retryAfter))])
    {
      var m := data.value;
      if retryAfter.Some? && retryAfter.value != 0.0 {
        if retryAfter.value > m["wait"].x {
          data := Some(m["wait" := FloatV(retryAfter.value)]);
          return;
        }
      }
      assert m["wait" := FloatV(m["wait"].x)] == m;
    }

    /**
     * get_location as written: after a rate-limited reply it retries while
     * still holding the lock, which asyncio's lock does not let it take again;
     * the release sits in a `finally` that runs only after the retry returns.
     */
    method GetLocationAsWritten(replies: seq<Reply>) returns (r: Lookup)
      requires data.Some? && IsNomRecord(data.value)
      modifies this
      decreases |replies|
      ensures data.Some? && IsNomRecord(data.value)
      ensures old(LockHeld(data.value)) ==> r == Deadlocked && LockHeld(data.value)
      ensures !old(LockHeld(data.value)) && replies != [] && replies[0].RateLimited? ==>
                r == Deadlocked && LockHeld(data.value)
      ensures !old(LockHeld(data.value)) && replies != [] && !replies[0].RateLimited? ==>
                r == Outcome(replies) && !LockHeld(data.value)
    {
      var acquired := Acquire();
      if !acquired {
        return Deadlocked;
      }
      if replies == [] {
        return Pending;
      }
      match replies[0] {
        case Reversed(loc) =>
          r := Done(loc);
        case RequestError =>
          r := Done(None);
        case RateLimited(retryAfter) =>
          Ratchet(retryAfter);
          r := GetLocationAsWritten(replies[1..]);
      }
      // the `finally` clause: it runs only once the request has returned
      if r != Deadlocked {
        ScheduleRelease();
      }
    }

    /**
     * get_location with the lock's release scheduled before the retry: every
     * rate-limited reply raises the wait and is followed by a retry, any other
     * error gives no location, a success gives the server's result.
     */
    method GetLocation(replies: seq<Reply>) returns (r: Lookup)
      requires data.Some? && IsNomRecord(data.value) && !LockHeld(data.value)
      modifies this
      decreases |replies|
      ensures r == Outcome(replies)
      ensures data.Some? && IsNomRecord(data.value)
      ensures LockHeld(data.value) <==> r == Pending
      ensures WaitOf(data.value) == WaitAfter(WaitOf(old(data.value)), replies)
      ensures forall k :: k in old(data.value) && k != "lock" && k != "wait" ==>
                k in data.value && data.value[k] == old(data.value)[k]
      ensures data.value.Keys == old(data.value).Keys
    {
      var acquired := Acquire();
      assert acquired;
      if replies == [] {
        return Pending;
      }
      match replies[0]
      case Reversed(loc) =>
        r := Done(loc);
        ScheduleRelease();
      case RequestError =>
        r := Done(None);
        ScheduleRelease();
      case RateLimited(retryAfter) =>
        Ratchet(retryAfter);
        ScheduleRelease();
        r := GetLocation(replies[1..]);
    }
  }
}
