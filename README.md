# context-log: a Dafny model of the per-thread context store

context-log lets code running on one thread attach key/value metadata to
every log record that the thread emits. Code calls `ContextLog.put` and its
`put_*` helpers to write to a per-thread dict, `context_map`. Only
`ContextLog.get_logger` creates that dict. It returns a `LoggerAdapter`
whose `extra={'contextMap': context_map}` holds a reference to the dict
itself, so later writes show up in later records. `put`, `get` and
`get_map` raise a `RuntimeError` while the thread has no dict. `clear`
removes the dict. `put_start_time` and `put_end_time` record timestamps,
and `put_end_time` also records a `duration` when a start time is present.

The project has three modules:

- `context_spec.dfy`, module `ContextSpec`: the pure semantics.
  - A unit's state is a `Slot`: `None` while the unit has no table, `Some(t)` once it has one.
  - `Write`, `StartTime` and `EndTime` give the effect of `put` and the timestamp helpers.
  - `Step` dispatches one public call. `Run` runs a sequence of calls on one unit. `RunAll` runs calls from many units, interleaved.
  - Lemmas state the lifecycle, last-write-wins, the duration rule and isolation between units.
- `context_log.dfy`, module `ContextLog`: the imperative heap model.
  - `ContextMap` is the dict: a heap object with a mutable field `m`.
  - `BoundLogger` is the adapter: a name and a constant reference to a `ContextMap`.
  - `Store` is `LOCAL`: `tables: map<UnitId, ContextMap>`. A unit absent from `tables` has no `context_map` attribute.
  - Every method that writes to a table ensures `Performed`: the caller's table took the `Step`, every other unit's table is unchanged, and no unit's table object was swapped.
  - `Contents()` is the store as `ContextSpec.StepAll` sees it. `ContextSpec.StepAllBySlots` shows that a call which moves only the caller's slot by `Step` is one `StepAll`, so the `Isolation` lemma applies to the store.
- `scenarios.dfy`, module `ContextLogScenarios`: client methods that follow, in part, the calls of `tests/test_log.py` and `tests/test_example.py` against a fresh `Store`.
  - They assert what those tests check, using only the contracts above.
  - `Handler` makes the calls of test_example.py:11-28 except the two `log.info` calls, since emitting records is not modelled.
  - `ThreadContext` makes the `put` call and three of the ten field helpers of test_log.py:55-94 (`put_request_id`, `put_request_method`, `put_trigger_source`). It omits the other seven helpers, `put_start_time` and `put_end_time`; those are covered by `Handler` and by each helper's own contract.
  - `InterleavedUnits` runs two units' calls on one store and applies `Isolation` to the result.
  - They also show aliasing. A handle sees later puts. A handle bound before `get_logger(clear=True)` keeps the old table. `get_logger(clear=False)` twice gives handles on the same table.

Two behaviours of the source are worth stating outright:

- `put_end_time` adds `duration` only when the stored `epoch-start-time` is truthy (contextlog.py:138-139), so a start time read at epoch 0 adds none (`EpochZeroStartOmitsDuration`).
- A truthy start time that is not a number raises `TypeError` after both end keys are stored (contextlog.py:134-140; `EndTime`).

The calling unit is an explicit `UnitId` parameter. The clock is an `Instant` parameter: its ISO text and its epoch time in microseconds. `timestamp()` is that epoch time divided by 10^6.

## Model

| member | source | states |
|---|---|---|
| ContextLog.Store.constructor | context_log/contextlog.py:10 | at process start no unit has a table |
| ContextLog.Store.Clear | context_log/contextlog.py:18-24 | the unit's table is removed if present, and nothing happens otherwise; it never fails; every other unit's table is unchanged |
| ContextLog.Store.Put | context_log/contextlog.py:26-39 | with no table, raises "put before get_logger" and changes nothing; otherwise overwrites `key` in place in the same table object; other keys and other units are unchanged |
| ContextLog.Store.Get | context_log/contextlog.py:41-57 | with no table, raises "get before get_logger"; a present key gives its value; a missing key gives None rather than an error; reads only |
| ContextLog.Store.GetMap | context_log/contextlog.py:59-72 | with no table, raises "get_map before get_logger"; otherwise returns the unit's live table object, not a copy |
| ContextLog.Store.GetLogger | context_log/contextlog.py:200-226 | clear=True always installs a fresh, empty table; clear=False reuses the existing table unchanged or creates an empty one; the handle's `contextMap` is the very table stored for the unit; other units are unchanged |
| ContextLog.Store.PutRequestId | context_log/contextlog.py:74-82 | as `put` with the fixed key `request-id`, and nothing else |
| ContextLog.Store.PutRequestMethod | context_log/contextlog.py:84-91 | as `put` with the fixed key `request-method` |
| ContextLog.Store.PutRequestPath | context_log/contextlog.py:93-100 | as `put` with the fixed key `request-path` |
| ContextLog.Store.PutResponseStatus | context_log/contextlog.py:102-109 | as `put` with the fixed key `response-status` |
| ContextLog.Store.PutStartTime | context_log/contextlog.py:111-122 | the unit's table takes the `StartTime` step, with the put error when it has no table |
| ContextLog.Store.PutEndTime | context_log/contextlog.py:124-141 | the unit's table takes the `EndTime` step: two puts, a get of the start time, and the conditional duration put |
| ContextLog.Store.PutRequestUserId | context_log/contextlog.py:143-150 | as `put` with the fixed key `user-id` |
| ContextLog.Store.PutRequestClientId | context_log/contextlog.py:152-159 | as `put` with the fixed key `client-id` |
| ContextLog.Store.PutRequestPrimaryIp | context_log/contextlog.py:161-169 | as `put` with the fixed key `primary-ip` |
| ContextLog.Store.PutRequestClientIp | context_log/contextlog.py:171-179 | as `put` with the fixed key `client-ip` |
| ContextLog.Store.PutRequestViewerCountry | context_log/contextlog.py:181-191 | as `put` with the fixed key `viewer-country` |
| ContextLog.Store.PutTriggerSource | context_log/contextlog.py:193-198 | as `put` with the fixed key `trigger-source` |
| ContextLog.Store.Contents | context_log/contextlog.py:10 | the store seen as a map from unit to table: a unit's entry is its table's contents, and a unit without a `context_map` has none |
| ContextLog.ContextMap.constructor | context_log/contextlog.py:218 | a new `dict()` is empty |
| ContextLog.BoundLogger.constructor | context_log/contextlog.py:221-224 | the adapter keeps the logger name and a reference to the very table passed in as `contextMap` |
| ContextSpec.Message | context_log/contextlog.py:37 | the text of each RuntimeError: "Don't call put before get_logger!", and likewise for get (line 52) and get_map (line 70) |
| ContextSpec.Epoch | context_log/contextlog.py:121 | `timestamp()` is epoch seconds at microsecond resolution (also line 135), and it is 0 exactly at the epoch |
| ContextSpec.Truthy | context_log/contextlog.py:139 | Python truthiness of a stored value: None, "", 0 and 0.0 are false; it decides whether `duration` is stored |
| ContextSpec.Lookup | context_log/contextlog.py:54-57 | `get`'s answer on a table: the stored value for a present key, None for a missing one |
| ContextSpec.Step | context_log/contextlog.py:18-226 | the effect of each public call on the calling unit's slot; its properties are the ensures of `Lifecycle` |
| ContextSpec.StepAllBySlots | context_log/contextlog.py:7-10 | a call that moves only the caller's slot, as `Step` does, changes the per-thread store exactly as the all-units step does |
| ContextSpec.RunAllSnoc | context_log/contextlog.py:7-10 | running one more call after a sequence of interleaved calls is one more all-units step |
| ContextSpec.Write | context_log/contextlog.py:34-39 | fails iff there is no table; otherwise `key` maps to `value` and every other key keeps its presence and value |
| ContextSpec.RoundHalfEven | context_log/contextlog.py:140 | the result is within 1/2 of the input, and an exact tie goes to the even integer |
| ContextSpec.Round3 | context_log/contextlog.py:140 | `round(x, 3)` lies within 0.0005 of `x` |
| ContextSpec.Round3Exact | context_log/contextlog.py:140 | a multiple of 0.001 is unchanged by `round(x, 3)` |
| ContextSpec.Elapsed | context_log/contextlog.py:140 | None or a string as the start time raises TypeError; an int or float start gives (end - start) x 1000 ms to within 0.0005 |
| ContextSpec.StartTime | context_log/contextlog.py:118-122 | fails iff there is no table; otherwise stores exactly `start-time` (ISO text) and `epoch-start-time` (epoch seconds) and leaves every other key alone |
| ContextSpec.EndTime | context_log/contextlog.py:132-141 | always stores `end-time` and `epoch-end-time` on a table; stores `duration` iff the start time is truthy and numeric; raises TypeError for a truthy string start time; with a falsy start time only the two end keys change |
| ContextSpec.Lifecycle | context_log/contextlog.py:18-72 | only get_logger creates a table and only clear removes one; put, get, get_map and the timestamp helpers raise their own error while there is no table; get and get_map change nothing |
| ContextSpec.UninitialisedUntilGetLogger | context_log/contextlog.py:34-70 | on a unit that never calls get_logger, the unit stays without a table and every call except clear raises |
| ContextSpec.ClearThenPutFails | tests/test_log.py:28-34 | after clear, a put raises again: the table is gone, not emptied |
| ContextSpec.ClearIdempotent | context_log/contextlog.py:19-24 | clearing twice is the same as clearing once |
| ContextSpec.LastWriteWins | context_log/contextlog.py:34-57 | after put(k, v), get(k) answers v for as long as no later call writes k, clears, or rebinds with clear=True |
| ContextSpec.ClockDuration | context_log/contextlog.py:118-141 | with a nonzero start epoch from the clock, put_start_time then put_end_time stores a duration of exactly (end - start) microseconds / 1000 ms |
| ContextSpec.DurationOmittedWithoutStart | context_log/contextlog.py:138-141 | without a recorded start time, put_end_time does not raise and adds no duration key |
| ContextSpec.EpochZeroStartOmitsDuration | context_log/contextlog.py:138-139 | a start time read at epoch 0 is falsy, so no duration is added |
| ContextSpec.Isolation | context_log/contextlog.py:7-10 | however the calls of several units interleave, each unit's table is what its own calls alone make of it |

## Left out

- The `threading.local` mechanism. Units are an explicit `UnitId` parameter, and the store is one map from unit to table. Preemptive concurrency is not modelled: the calls of different units are interleaved one at a time (`RunAll`).
- `logging.getLogger` and `logging.LoggerAdapter`. These are a foreign library. The handle is a `BoundLogger` holding the name and the table reference. Emitting a record and serialising it (JSON, YAML configuration) are not modelled. The scenarios read the handle's table instead of a record.
- `datetime.now()`, `isoformat()` and `timestamp()`. These are the clock, passed in as an `Instant`. The clock is not checked to be monotonic.
- Float arithmetic. Epochs and durations are exact reals, and `round(x, 3)` is round-half-even on a real. Binary floating-point error is not modelled.
- Values other than None, str, int and float (booleans, lists, dicts). `Value` has only these four kinds.
- Keys other than strings. `put` accepts any hashable key (contextlog.py:27, 39), but `Table` maps `string` keys only. Every key the helpers write is a string.
- The 100–500 ms duration range checked in tests/test_log.py:88. It depends on a real sleep.
- setup.py. It is packaging only.
