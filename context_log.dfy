/**
 * The context store of context_log as heap objects.
 *
 * The Python module keeps one `context_map` dict per thread on a
 * `threading.local`. Here a `Store` maps each execution unit that has a
 * table to its `ContextMap` object; a unit missing from `tables` has no
 * `context_map` attribute. Every operation takes the calling unit as an
 * explicit parameter, and every method that changes the store is proved
 * to take the step that ContextSpec.StepAll describes, so the lemmas of
 * ContextSpec (lifecycle, last write wins, isolation) hold of it.
 */
module ContextLog {
  import opened ContextSpec

  /** The dict installed for one unit. Handles alias it; they never copy it. */
  class ContextMap {
    var m: Table

    constructor ()
      ensures m == map[]
    {
      m := map[];
    }
  }

  /**
   * What `logging.LoggerAdapter(logging.getLogger(name), extra={'contextMap': context_map})`
   * keeps: the logger's name and a reference to the unit's table, which
   * every record it emits carries as `contextMap`.
   */
  class BoundLogger {
    const name: string
    const contextMap: ContextMap

    constructor (name: string, contextMap: ContextMap)
      ensures this.name == name && this.contextMap == contextMap
    {
      this.name := name;
      this.contextMap := contextMap;
    }
  }

  /** The process-wide `LOCAL`: every unit's table. */
  class Store {
    var tables: map<UnitId, ContextMap>

    /** No two units share a table. */
    ghost predicate Valid()
      reads this
    {
      forall u, w :: u in tables && w in tables && u != w ==> tables[u] != tables[w]
    }

    /** The contents of unit `u`'s table, or None if it has none. */
    ghost function SlotFor(u: UnitId): Slot
      reads this, tables.Values
    {
      if u in tables then Some(tables[u].m) else None
    }

    /**
     * The contents of every initialised unit's table, as the all-units
     * semantics ContextSpec.StepAll sees the store.
     */
    ghost function Contents(): (r: Tables)
      reads this, tables.Values
      ensures forall w :: SlotOf(r, w) == SlotFor(w)
    {
      map u | u in tables :: tables[u].m
    }

    /** The objects an operation of unit `u` may write: its table, if any. */
    function Footprint(u: UnitId): set<object>
      reads this
    {
      if u in tables then {tables[u]} else {}
    }

    /**
     * The calling unit `u` performed `op` with outcome `o`: its table took
     * the step that Step describes, every other unit's table is as it was
     * (together, the step StepAll describes), and no unit gained, lost or
     * swapped a table object.
     */
    twostate predicate Performed(u: UnitId, op: Op, o: Outcome)
      reads this, tables.Values
    {
      Valid() && tables == old(tables) &&
      SlotFor(u) == Step(old(SlotFor(u)), op).slot &&
      (forall w :: w != u ==> SlotFor(w) == old(SlotFor(w))) &&
      o == Step(old(SlotFor(u)), op).outcome
    }

    /** At process start no unit has a table. */
    constructor ()
      ensures Valid() && tables == map[]
      ensures forall u :: SlotFor(u) == None
    {
      tables := map[];
    }

    /** `ContextLog.clear()`: drops the unit's table, if it has one. */
    method Clear(u: UnitId)
      requires Valid()
      modifies this
      ensures Valid()
      ensures tables == old(tables) - {u}
      ensures SlotFor(u) == Step(old(SlotFor(u)), Op.Clear).slot
      ensures forall w :: w != u ==> SlotFor(w) == old(SlotFor(w))
    {
      if u in tables {
        tables := tables - {u};
      }
    }

    /** `ContextLog.put(key, value)`: writes into the unit's table in place. */
    method Put(u: UnitId, key: string, value: Value) returns (o: Outcome)
      requires Valid()
      modifies Footprint(u)
      ensures Performed(u, Op.Put(key, value), o)
    {
      if u !in tables {
        return Fail(PutBeforeGetLogger);
      }
      var contextMap := tables[u];
      contextMap.m := contextMap.m[key := value];
      o := Pass;
    }

    /** `ContextLog.get(key)`: the stored value, or None for a missing key. */
    method Get(u: UnitId, key: string) returns (r: Result<Value>)
      ensures u !in tables ==> r == Failure(GetBeforeGetLogger)
      ensures u in tables && key in tables[u].m ==> r == Success(tables[u].m[key])
      ensures u in tables && key !in tables[u].m ==> r == Success(Null)
    {
      if u !in tables {
        return Failure(GetBeforeGetLogger);
      }
      var contextMap := tables[u];
      if key in contextMap.m {
        return Success(contextMap.m[key]);
      }
      return Success(Null);
    }

    /** `ContextLog.get_map()`: the unit's live table itself, not a copy. */
    method GetMap(u: UnitId) returns (r: Result<ContextMap>)
      ensures u !in tables ==> r == Failure(GetMapBeforeGetLogger)
      ensures u in tables ==> r == Success(tables[u])
    {
      if u !in tables {
        return Failure(GetMapBeforeGetLogger);
      }
      return Success(tables[u]);
    }

    /**
     * `ContextLog.get_logger(name, clear)`: clears first if asked, creates
     * an empty table only if the unit has none, and hands out a handle
     * bound to the very table stored for the unit.
     */
    method GetLogger(u: UnitId, name: string, clear: bool) returns (logger: BoundLogger)
      requires Valid()
      modifies this
      ensures Valid()
      ensures SlotFor(u) == Step(old(SlotFor(u)), Op.GetLogger(name, clear)).slot
      ensures forall w :: w != u ==> SlotFor(w) == old(SlotFor(w))
      ensures u in tables && logger.contextMap == tables[u] && logger.name == name
      ensures fresh(logger)
      ensures clear || u !in old(tables) ==> fresh(tables[u])
      ensures !clear && u in old(tables) ==> tables == old(tables)
      ensures forall w :: w != u ==> (w in tables <==> w in old(tables))
      ensures forall w :: w != u && w in tables ==> tables[w] == old(tables[w])
    {
      if clear {
        Clear(u);
      }
      var contextMap: ContextMap;
      if u in tables {
        contextMap := tables[u];
      } else {
        contextMap := new ContextMap();
        tables := tables[u := contextMap];
      }
      logger := new BoundLogger(name, contextMap);
    }

    /** `put_request_id`: writes `request-id` and nothing else. */
    method PutRequestId(u: UnitId, requestId: Value) returns (o: Outcome)
      requires Valid()
      modifies Footprint(u)
      ensures Performed(u, Op.Put(RequestIdKey, requestId), o)
    {
      o := Put(u, RequestIdKey, requestId);
    }

    /** `put_request_method`: writes `request-method` and nothing else. */
    method PutRequestMethod(u: UnitId, requestMethod: Value) returns (o: Outcome)
      requires Valid()
      modifies Footprint(u)
      ensures Performed(u, Op.Put(RequestMethodKey, requestMethod), o)
    {
      o := Put(u, RequestMethodKey, requestMethod);
    }

    /** `put_request_path`: writes `request-path` and nothing else. */
    method PutRequestPath(u: UnitId, requestPath: Value) returns (o: Outcome)
      requires Valid()
      modifies Footprint(u)
      ensures Performed(u, Op.Put(RequestPathKey, requestPath), o)
    {
      o := Put(u, RequestPathKey, requestPath);
    }

    /** `put_response_status`: writes `response-status` and nothing else. */
    method PutResponseStatus(u: UnitId, responseStatus: Value) returns (o: Outcome)
      requires Valid()
      modifies Footprint(u)
      ensures Performed(u, Op.Put(ResponseStatusKey, responseStatus), o)
    {
      o := Put(u, ResponseStatusKey, responseStatus);
    }

    /** `put_request_user_id`: writes `user-id` and nothing else. */
    method PutRequestUserId(u: UnitId, userId: Value) returns (o: Outcome)
      requires Valid()
      modifies Footprint(u)
      ensures Performed(u, Op.Put(UserIdKey, userId), o)
    {
      o := Put(u, UserIdKey, userId);
    }

    /** `put_request_client_id`: writes `client-id` and nothing else. */
    method PutRequestClientId(u: UnitId, clientId: Value) returns (o: Outcome)
      requires Valid()
      modifies Footprint(u)
      ensures Performed(u, Op.Put(ClientIdKey, clientId), o)
    {
      o := Put(u, ClientIdKey, clientId);
    }

    /** `put_request_primary_ip`: writes `primary-ip` and nothing else. */
    method PutRequestPrimaryIp(u: UnitId, primaryIp: Value) returns (o: Outcome)
      requires Valid()
      modifies Footprint(u)
      ensures Performed(u, Op.Put(PrimaryIpKey, primaryIp), o)
    {
      o := Put(u, PrimaryIpKey, primaryIp);
    }

    /** `put_request_client_ip`: writes `client-ip` and nothing else. */
    method PutRequestClientIp(u: UnitId, clientIp: Value) returns (o: Outcome)
      requires Valid()
      modifies Footprint(u)
      ensures Performed(u, Op.Put(ClientIpKey, clientIp), o)
    {
      o := Put(u, ClientIpKey, clientIp);
    }

    /** `put_request_viewer_country`: writes `viewer-country` and nothing else. */
    method PutRequestViewerCountry(u: UnitId, viewerCountry: Value) returns (o: Outcome)
      requires Valid()
      modifies Footprint(u)
      ensures Performed(u, Op.Put(ViewerCountryKey, viewerCountry), o)
    {
      o := Put(u, ViewerCountryKey, viewerCountry);
    }

    /** `put_trigger_source`: writes `trigger-source` and nothing else. */
    method PutTriggerSource(u: UnitId, triggerSource: Value) returns (o: Outcome)
      requires Valid()
      modifies Footprint(u)
      ensures Performed(u, Op.Put(TriggerSourceKey, triggerSource), o)
    {
      o := Put(u, TriggerSourceKey, triggerSource);
    }

    /** `put_start_time()`, with the clock reading `now` passed in. */
    method PutStartTime(u: UnitId, now: Instant) returns (o: Outcome)
      requires Valid()
      modifies Footprint(u)
      ensures Performed(u, Op.PutStartTime(now), o)
    {
      ghost var e1 := Write(SlotFor(u), StartTimeKey, Str(now.iso));
      o := Put(u, StartTimeKey, Str(now.iso));
      if o.Fail? {
        return;
      }
      assert SlotFor(u) == e1.slot;
      o := Put(u, EpochStartTimeKey, Num(Epoch(now)));
    }

    /** `put_end_time()`, with the clock reading `now` passed in. */
    method PutEndTime(u: UnitId, now: Instant) returns (o: Outcome)
      requires Valid()
      modifies Footprint(u)
      ensures Performed(u, Op.PutEndTime(now), o)
    {
      ghost var e1 := Write(SlotFor(u), EndTimeKey, Str(now.iso));
      o := Put(u, EndTimeKey, Str(now.iso));
      if o.Fail? {
        return;
      }
      var epochNow := Epoch(now);
      ghost var e2 := Write(e1.slot, EpochEndTimeKey, Num(epochNow));
      o := Put(u, EpochEndTimeKey, Num(epochNow));
      assert SlotFor(u) == e2.slot;
      var got := Get(u, EpochStartTimeKey);
      assert got == Success(Lookup(e2.slot.value, EpochStartTimeKey));
      var epochStartTime := got.value;
      if Truthy(epochStartTime) {
        var duration := Elapsed(epochNow, epochStartTime);
        if duration.Failure? {
          o := Fail(duration.error);
        } else {
          o := Put(u, DurationKey, Num(duration.value));
        }
      }
    }
  }
}
