/**
 * Client code of the store, following the repository's tests: each method
 * runs one test's calls against a fresh Store and asserts what the test
 * checks, using only the contracts of ContextLog.Store.
 */
module ContextLogScenarios {
  import opened ContextSpec
  import opened ContextLog

  /** test_premature_put: a put helper after clear raises the put error. */
  method PrematurePut()
  {
    var store := new Store();
    var u: UnitId := 7;
    store.Clear(u);
    var o := store.PutRequestId(u, Str("xyz"));
    assert o == Fail(PutBeforeGetLogger);
    assert Message(o.error) == "Don't call put before get_logger!";
    assert u !in store.tables;
  }

  /** test_premature_get and test_premature_get_map. */
  method PrematureGet()
  {
    var store := new Store();
    var u: UnitId := 7;
    store.Clear(u);
    var r := store.Get(u, "xyz");
    assert r == Failure(GetBeforeGetLogger);
    var m := store.GetMap(u);
    assert m == Failure(GetMapBeforeGetLogger);
    assert Message(m.error) == "Don't call get_map before get_logger!";
  }

  /**
   * test_handler: bind with clear=True, put `ip`, then record start and end
   * around the request; the duration is the elapsed time.
   */
  method Handler(start: Instant, end: Instant)
    requires start.micros != 0
  {
    var store := new Store();
    var u: UnitId := 1;
    var log := store.GetLogger(u, "handler", true);
    var o := store.Put(u, "ip", Str("1.2.3.4"));
    assert log.contextMap.m["ip"] == Str("1.2.3.4");
    o := TimeRequest(store, u, log, start, end);
    assert o == Pass;
    assert log.contextMap.m[DurationKey] == Num((end.micros - start.micros) as real / 1000.0);
  }

  /**
   * put_start_time then put_end_time on a bound unit: both pass, the end
   * time is stored, and the duration is the elapsed time in milliseconds.
   */
  method TimeRequest(store: Store, u: UnitId, log: BoundLogger, start: Instant, end: Instant) returns (o: Outcome)
    requires store.Valid() && u in store.tables && log.contextMap == store.tables[u]
    requires start.micros != 0
    modifies log.contextMap
    ensures o == Pass
    ensures EndTimeKey in log.contextMap.m && log.contextMap.m[EndTimeKey] == Str(end.iso)
    ensures DurationKey in log.contextMap.m && log.contextMap.m[DurationKey] == Num((end.micros - start.micros) as real / 1000.0)
  {
    ghost var bound := store.SlotFor(u);
    o := store.PutStartTime(u, start);
    o := store.PutEndTime(u, end);
    ClockDuration(bound, start, end);
  }

  /** test_thread_context (in part): the helpers' keys are visible through the handle. */
  method ThreadContext()
  {
    var store := new Store();
    var u: UnitId := 2;
    var log := store.GetLogger(u, "test_thread_context", true);
    var o := store.Put(u, "arbitrary", Str("value"));
    o := store.PutRequestId(u, Str("xyz"));
    assert |"arbitrary"| != |RequestIdKey|;
    o := store.PutRequestMethod(u, Str("POST"));
    assert |"arbitrary"| != |RequestMethodKey| && |RequestIdKey| != |RequestMethodKey|;
    o := store.PutTriggerSource(u, Str("Event"));
    assert |"arbitrary"| != |TriggerSourceKey| && RequestIdKey[0] != TriggerSourceKey[0];
    assert RequestMethodKey[0] != TriggerSourceKey[0];
    assert store.SlotFor(u).value == log.contextMap.m;
    assert log.contextMap.m["arbitrary"] == Str("value");
    assert log.contextMap.m[RequestIdKey] == Str("xyz");
    assert log.contextMap.m[RequestMethodKey] == Str("POST");
    var r := store.Get(u, TriggerSourceKey);
    assert r == Success(Str("Event"));
    var m := store.GetMap(u);
    assert m == Success(log.contextMap);
  }

  /**
   * A handle sees later puts (it holds a reference, not a copy); a handle
   * bound before `get_logger(clear=True)` keeps the old table.
   */
  method LiveAndStaleHandles()
  {
    var store := new Store();
    var u: UnitId := 3;
    var first := store.GetLogger(u, "first", false);
    var again := store.GetLogger(u, "again", false);
    assert again.contextMap == first.contextMap;
    var o := store.Put(u, "k", Str("one"));
    assert store.SlotFor(u).value == first.contextMap.m;
    assert first.contextMap.m["k"] == Str("one");
    var second := store.GetLogger(u, "second", true);
    assert second.contextMap != first.contextMap;
    assert second.contextMap.m == map[];
    o := store.Put(u, "k", Str("two"));
    assert store.SlotFor(u).value == second.contextMap.m;
    assert second.contextMap.m["k"] == Str("two");
    assert first.contextMap.m["k"] == Str("one");
  }

  /**
   * Calls of two units on the store, interleaved: the store follows
   * ContextSpec.RunAll, so by Isolation unit `a`'s table is what its own
   * calls alone make of it.
   */
  method InterleavedUnits()
  {
    var store := new Store();
    var a: UnitId, b: UnitId := 20, 21;
    ghost var k0, k1, k2 := Call(a, Op.GetLogger("a", false)), Call(b, Op.GetLogger("b", true)), Call(a, Op.Put("k", Int(1)));
    ghost var c0 := store.Contents();
    var logA := store.GetLogger(a, "a", false);
    ghost var c1 := store.Contents();
    StepAllBySlots(c0, c1, a, k0.op);
    var logB := store.GetLogger(b, "b", true);
    ghost var c2 := store.Contents();
    StepAllBySlots(c1, c2, b, k1.op);
    var o := store.Put(a, "k", Int(1));
    ghost var c3 := store.Contents();
    StepAllBySlots(c2, c3, a, k2.op);
    RunThree(c0, k0, k1, k2);
    Isolation(c0, [k0, k1, k2], a);
    assert c0 == map[];
    assert store.SlotFor(a) == Run(None, OpsOf([k0, k1, k2], a));
  }

  /** Three StepAll steps in a row are RunAll over the three calls. */
  lemma RunThree(ts: Tables, k0: Call, k1: Call, k2: Call)
    ensures RunAll(ts, [k0, k1, k2]) == StepAll(StepAll(StepAll(ts, k0), k1), k2)
  {
    RunAllSnoc(ts, [], k0);
    RunAllSnoc(ts, [k0], k1);
    RunAllSnoc(ts, [k0, k1], k2);
    assert [] + [k0] == [k0];
    assert [k0] + [k1] == [k0, k1] && [k0, k1] + [k2] == [k0, k1, k2];
  }

  /** Two units each bind and put under the same key; each reads back its own value. */
  method TwoUnits()
  {
    var store := new Store();
    var a: UnitId, b: UnitId := 10, 11;
    var logA := store.GetLogger(a, "a", true);
    var logB := store.GetLogger(b, "b", true);
    assert store.tables[a] == logA.contextMap;
    var o := store.Put(a, "k", Int(10));
    o := store.Put(b, "k", Int(11));
    var ra := store.Get(a, "k");
    var rb := store.Get(b, "k");
    assert ra == Success(Int(10));
    assert rb == Success(Int(11));
  }
}
