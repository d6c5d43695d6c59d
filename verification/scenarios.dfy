/**
 * The behaviours of the thread-local store, each replayed against the model
 * as a client of `ThreadLocal.Store`.  Every method starts from a fresh store
 * (no context bound anywhere) and states in its postcondition what is
 * observed.  Execution context 0 is the main thread; 1 is another thread or
 * greenlet.
 */
module Scenarios {
  import opened Contexts
  import opened ThreadLocal

  const Main: ExecutionId := 0
  const Other: ExecutionId := 1

  /** A store with one fresh `wrap_dict` partition and a logger whose context is a handle of it. */
  method WrappedLogger() returns (s: Store, log: BoundLogger)
    ensures fresh(s) && s.Valid() && s.Attached(log) && log.context.Shared?
    ensures forall c :: s.ContextOf(log, c) == map[]
  {
    s := new Store();
    var p := s.WrapDict();
    var h := s.NewHandle(p, Main, NoItems, map[]);
    log := BoundLogger(Shared(h.value));
  }

  /**
   * A temporary binding of x=42, y="foo" over a logger bound with y=23:
   * inside, the temporary and the original logger both see the merged
   * context, read from the store; after the scope, whether its body returned
   * or raised, the context is exactly {y: 23} again and the body's exception
   * is passed on.
   */
  method TmpBindScenario(body: Outcome) returns (insideTmp: Context, insideOrig: Context, after: Context, propagated: Outcome)
    ensures insideTmp == insideOrig == map["y" := Str("foo"), "x" := Int(42)]
    ensures after == map["y" := Int(23)]
    ensures propagated == body
  {
    var s, log := WrappedLogger();
    log := s.BindLogger(log, Main, map["y" := Int(23)]);
    var tmp, saved := s.TmpBindEnter(log, Main, map["x" := Int(42), "y" := Str("foo")]);
    insideTmp := s.ContextOf(tmp, Main);
    insideOrig := s.ContextOf(log, Main);
    propagated := s.TmpBindExit(log, Main, saved, body);
    after := s.ContextOf(log, Main);
  }

  /**
   * `as_immutable(log.new(x=42))` has a plain-dictionary context; binding
   * y=23 on it leaves the original logger's shared context at {x: 42}, and
   * converting the detached logger once more still gives a detached logger.
   */
  method AsImmutableScenario() returns (detached: Context, original: Context, again: BoundLogger)
    ensures detached == map["x" := Int(42), "y" := Int(23)]
    ensures original == map["x" := Int(42)]
    ensures again.context.Detached? && again.context.items == map["x" := Int(42)]
  {
    var s, log := WrappedLogger();
    log := s.NewLogger(log, Main, map["x" := Int(42)]);
    var il := s.AsImmutable(log, Main);
    again := s.AsImmutable(il, Main);
    il := s.BindLogger(il, Main, map["y" := Int(23)]);
    detached := il.context.items;
    original := s.ContextOf(log, Main);
  }

  /** Two `wrap_dict` calls give two distinct partitions. */
  method DistinctPartitionsScenario() returns (p1: PartitionId, p2: PartitionId)
    ensures p1 != p2
  {
    var s := new Store();
    p1 := s.WrapDict();
    p2 := s.WrapDict();
  }

  /**
   * A handle whose `key` is set to 42 in the main thread: another thread or
   * greenlet finds no `probe` key in its own mapping and sets `key` to 23
   * there; the main thread still reads 42.  The thread case writes and
   * probes "tl"; the greenlet case writes "switch" and probes "x".
   */
  method OtherExecutionContextScenario(key: string, probe: string) returns (seenByOther: bool, mainValue: Result<Value>)
    ensures !seenByOther
    ensures mainValue == Ok(Int(42))
  {
    var s := new Store();
    var p := s.WrapDict();
    var d := s.NewHandle(p, Main, NoItems, map[]);
    s.SetItem(d.value, Main, key, Int(42));
    var inOther := s.Items(d.value, Other);
    seenByOther := probe in inOther;
    s.SetItem(d.value, Other, key, Int(23));
    mainValue := s.GetItem(d.value, Main, key);
  }

  /**
   * `D({a: 42})`, `D({b: 23})` and `D()` all see {a: 42, b: 23} and are
   * equal to each other.
   */
  method SharedPartitionScenario() returns (d1: Context, d2: Context, d3: Context, allEqual: bool)
    ensures d1 == d2 == d3 == map["a" := Int(42), "b" := Int(23)]
    ensures allEqual
  {
    var s := new Store();
    var p := s.WrapDict();
    var h1 := s.NewHandle(p, Main, Items(map["a" := Int(42)]), map[]);
    var h2 := s.NewHandle(p, Main, Items(map["b" := Int(23)]), map[]);
    var h3 := s.NewHandle(p, Main, NoItems, map[]);
    assert s.View(p, Main) == map["a" := Int(42), "b" := Int(23)];
    d1 := s.Items(h1.value, Main);
    d2 := s.Items(h2.value, Main);
    d3 := s.Items(h3.value, Main);
    allEqual := s.HandleEquals(h1.value, h2.value) && s.HandleEquals(h2.value, h3.value);
  }

  /**
   * A handle of a second partition built with the same items {a: 42, b: 23}
   * as a handle of the first sees the same items, yet the two are not equal.
   */
  method DistinctPartitionEqualityScenario() returns (mine: Context, theirs: Context, equal: bool)
    ensures mine == theirs == map["a" := Int(42), "b" := Int(23)]
    ensures !equal
  {
    var s := new Store();
    var p := s.WrapDict();
    var d1 := s.NewHandle(p, Main, Items(map["a" := Int(42), "b" := Int(23)]), map[]);
    var q := s.WrapDict();
    var d := s.NewHandle(q, Main, Items(map["a" := Int(42), "b" := Int(23)]), map[]);
    mine := s.Items(d1.value, Main);
    theirs := s.Items(d.value, Main);
    equal := s.HandleEquals(d1.value, d.value);
  }

  /** `D(d, b=23)` with `d = D({a: 42})` sees {a: 42, b: 23}. */
  method InitWithItselfScenario() returns (items: Context)
    ensures items == map["a" := Int(42), "b" := Int(23)]
  {
    var s := new Store();
    var p := s.WrapDict();
    var d := s.NewHandle(p, Main, Items(map["a" := Int(42)]), map[]);
    var e := s.NewHandle(p, Main, OfHandle(d.value), map["b" := Int(23)]);
    items := s.Items(e.value, Main);
  }

  /** Iterating over `D({a: 42})` yields the single key "a". */
  method IterScenario() returns (keys: seq<string>)
    ensures keys == ["a"]
  {
    var s := new Store();
    var p := s.WrapDict();
    var d := s.NewHandle(p, Main, Items(map["a" := Int(42)]), map[]);
    keys := s.Iter(d.value, Main);
    assert keys[0] == "a";
  }

  /** `clear()` on `D({a: 42})` leaves it with length 0. */
  method ClearScenario() returns (n: nat)
    ensures n == 0
  {
    var s := new Store();
    var p := s.WrapDict();
    var d := s.NewHandle(p, Main, Items(map["a" := Int(42)]), map[]);
    s.Clear(d.value, Main);
    n := s.Len(d.value, Main);
  }

  /**
   * `d["del"] = 13` then `del d["del"]`: the key is there, then gone, and
   * the handle's dictionary is back to the empty one it started as.
   */
  method DelScenario() returns (before: Result<Value>, deleted: Outcome, after: Context)
    ensures before == Ok(Int(13))
    ensures deleted == Pass && "del" !in after
    ensures after == map[]
  {
    var s := new Store();
    var p := s.WrapDict();
    var d := s.NewHandle(p, Main, NoItems, map[]);
    s.SetItem(d.value, Main, "del", Int(13));
    before := s.GetItem(d.value, Main, "del");
    deleted := s.DelItem(d.value, Main, "del");
    SetThenPop(map[], "del", Int(13));
    after := s.Items(d.value, Main);
  }

  /** A handle of a fresh partition has length 0. */
  method NewClassScenario() returns (n: nat)
    ensures n == 0
  {
    var s := new Store();
    var p := s.WrapDict();
    var d := s.NewHandle(p, Main, NoItems, map[]);
    n := s.Len(d.value, Main);
  }

  /** After `bind_threadlocal(a=1)`, merging {b: 2} gives {a: 1, b: 2}. */
  method BindAndMergeScenario() returns (merged: Context)
    ensures merged == map["a" := Int(1), "b" := Int(2)]
  {
    var s := new Store();
    s.BindThreadLocal(Main, map["a" := Int(1)]);
    merged := s.MergeThreadLocal(Main, map["b" := Int(2)]);
  }

  /** After `bind_threadlocal(a=1)` and `clear_threadlocal()`, merging {b: 2} gives {b: 2}. */
  method ClearThreadLocalScenario() returns (merged: Context)
    ensures merged == map["b" := Int(2)]
  {
    var s := new Store();
    s.BindThreadLocal(Main, map["a" := Int(1)]);
    s.ClearThreadLocal(Main);
    merged := s.MergeThreadLocal(Main, map["b" := Int(2)]);
  }

  /** With nothing bound, merging {b: 2} gives {b: 2}. */
  method MergeWithoutBindScenario() returns (merged: Context)
    ensures merged == map["b" := Int(2)]
  {
    var s := new Store();
    merged := s.MergeThreadLocal(Main, map["b" := Int(2)]);
  }

  /** `bind_threadlocal(a=1, b=2)` then `bind_threadlocal(c=3)` accumulate. */
  method MultipleBindsScenario() returns (merged: Context)
    ensures merged == map["a" := Int(1), "b" := Int(2), "c" := Int(3)]
  {
    var s := new Store();
    s.BindThreadLocal(Main, map["a" := Int(1), "b" := Int(2)]);
    s.BindThreadLocal(Main, map["c" := Int(3)]);
    merged := s.MergeThreadLocal(Main, map["b" := Int(2)]);
  }

  /** Unbinding "a" removes it; unbinding an absent key changes nothing and does not fail. */
  method UnbindScenario() returns (first: Context, second: Context, third: Context)
    ensures first == map["a" := Int(234), "b" := Int(34)]
    ensures second == third == map["b" := Int(34)]
  {
    var s := new Store();
    s.BindThreadLocal(Main, map["a" := Int(234), "b" := Int(34)]);
    first := s.GetThreadLocal(Main);
    assert first == map["a" := Int(234), "b" := Int(34)];
    UnbindOne(first, "a");
    assert Pop(first, "a") == map["b" := Int(34)];
    s.UnbindThreadLocal(Main, ["a"]);
    second := s.GetThreadLocal(Main);
    UnbindAbsent(second, ["non-existing-key"]);
    s.UnbindThreadLocal(Main, ["non-existing-key"]);
    third := s.GetThreadLocal(Main);
  }

  /** With no ambient mapping yet, `get_threadlocal()` gives {} and creates the mapping. */
  method GetWithoutContextScenario() returns (existedBefore: bool, r: Context, existsAfter: bool)
    ensures !existedBefore && existsAfter
    ensures r == map[]
  {
    var s := new Store();
    existedBefore := (AmbientPartition, Main) in s.tables;
    r := s.GetThreadLocal(Main);
    existsAfter := (AmbientPartition, Main) in s.tables;
  }

  /** With x=1 bound ambiently and a detached logger bound with y=2, the merged copy is {x: 1, y: 2}. */
  method GetMergedScenario() returns (merged: Context)
    ensures merged == map["x" := Int(1), "y" := Int(2)]
  {
    var s := new Store();
    s.BindThreadLocal(Main, map["x" := Int(1)]);
    var log := s.BindLogger(BoundLogger(Detached(map[])), Main, map["y" := Int(2)]);
    merged := s.GetMergedThreadLocal(Main, log);
  }
}
