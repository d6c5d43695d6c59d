# structlog thread-local context store, in Dafny

This project models structlog's thread-local context (`structlog.threadlocal`). The store keeps one context dictionary per execution context, where an execution context is a thread or a greenlet. Those dictionaries hold the ambient key/value pairs that get attached to every log event.

The model covers:

- The module-level ambient context. Its operations are `bind_threadlocal`, `unbind_threadlocal`, `clear_threadlocal`, `get_threadlocal`, `merge_threadlocal` and `get_merged_threadlocal`.
- The isolated partitions that `wrap_dict` creates. Each call to `wrap_dict` makes a new class, and all instances of that class (here called handles) share one dictionary per execution context.
- `tmp_bind`: a scoped temporary binding that restores the saved context on every exit path.
- `as_immutable`: turns a logger with a shared context into one with a detached, plain-dictionary context.

The behaviour is taken from the assertions in `tests/test_threadlocal.py`. The implementation module is not part of this model.

Files:

- `contexts.dfy`, module `Contexts`: the context dictionary (`map<string, Value>`) and the dictionary operations the store uses:
  - `Update` (dict.update);
  - `Pop` (pop with a default);
  - `Unbind` (pops keys in order);
  - `BindAll` (successive binds);
  - `KeysOf` (key iteration).
  It also holds the lemmas about these operations.
- `threadlocal.dfy`, module `ThreadLocal`: the class `Store`, which the operations change in place. It has two fields:
  - `tables: map<(PartitionId, ExecutionId), Context>`. Partition 0 is the ambient `_CONTEXT`.
  - `nextPartition`, the counter `wrap_dict` draws fresh partitions from.
  Every operation takes the current execution context as an explicit `ExecutionId`. A mapping that is read before it was ever written is created empty at that point (`Touched`), as the store does lazily. `Handle` is an instance of a wrapped class. `BoundLogger` carries either a handle (`Shared`) or a plain dictionary (`Detached`).
- `scenarios.dfy`, module `Scenarios`: each behaviour in the test file replayed against `Store`, starting from an empty store. Each postcondition states what the test asserts. Execution context 0 is the main thread and 1 is the other thread or greenlet.

Design decisions:

- **Merge precedence.** The tests never merge two different values under the same key. The only overlap is `b: 2` on both sides at tests/test_threadlocal.py:324-329. The model chooses this precedence:
  - `merge_threadlocal` lets the event dictionary win over the ambient context;
  - `get_merged_threadlocal` lets the logger's own context win.
  Both are `Update(ambient, other)`. This is a choice, not a property derived from the tests.
- **Handle equality is class identity, not content equality.** At tests/test_threadlocal.py:181-191, `d1` and `d_` both hold `{"a": 42, "b": 23}`, yet the test asserts `d1 != d_`. So two handles are equal exactly when they belong to the same partition (the same wrapped class). Comparing handles by their contents would make `d1 == d_`, which the test rules out (`Store.HandleEquals`, `Scenarios.DistinctPartitionEqualityScenario`).
- **TypeConflict.** Building a handle from a handle of a different partition fails with `TypeConflict` and leaves the store unchanged. The tests never do this, so this error path is a modelling choice.

## Model

| member | source | states |
|---|---|---|
| `Contexts.Update` | tests/test_threadlocal.py:293-300 | binding or merging `overrides` into `base` keeps every key of both; keys of `overrides` take its values (later bind / event / logger context wins) and all other keys keep their old value |
| `Contexts.Pop` | tests/test_threadlocal.py:331-346 | removing a key: the key is gone, every other key and its value is kept, and an absent key is no error |
| `Contexts.Unbind` | tests/test_threadlocal.py:331-346 | unbinding a list of keys leaves exactly the old keys minus the listed ones, each with its old value |
| `Contexts.UnbindOne` | tests/test_threadlocal.py:340-342 | unbinding one key is popping that key |
| `Contexts.UnbindAbsent` | tests/test_threadlocal.py:344-346 | unbinding keys none of which is bound leaves the context equal to what it was (used by `Scenarios.UnbindScenario`) |
| `Contexts.BindAll` | tests/test_threadlocal.py:319-329 | successive binds never drop a key that was bound before, and the last bind's keywords hold their values afterwards |
| `Contexts.BindAllKeys` | tests/test_threadlocal.py:319-329 | after successive binds a key is bound if and only if it was bound before or one of the binds set it (binds accumulate rather than replace) |
| `Contexts.BindAllLastWins` | tests/test_threadlocal.py:319-329 | after successive binds a key holds the value of the last bind that set it |
| `Contexts.BindAllKeepsUnbound` | tests/test_threadlocal.py:319-329 | a key no later bind mentions keeps its earlier value |
| `Contexts.UpdateOfEmpty` | tests/test_threadlocal.py:312-317 | merging an event into an empty context gives back the event dictionary unchanged |
| `Contexts.UpdateWithItself` | tests/test_threadlocal.py:193-199 | updating a dictionary with its own items changes nothing, so building a handle from a handle of its own partition only adds the keyword arguments |
| `Contexts.SetThenPop` | tests/test_threadlocal.py:266-277 | setting a fresh key and then deleting it restores the dictionary (used by `Scenarios.DelScenario`) |
| `Contexts.KeysOf` | tests/test_threadlocal.py:201-207 | iteration yields as many keys as the dictionary has, each exactly once, and exactly its keys |
| `ThreadLocal.Touched` | tests/test_threadlocal.py:348-359 | accessing a mapping creates it when absent, adds no other key and changes what no mapping reads |
| `ThreadLocal.Store.constructor` | tests/test_threadlocal.py:36-41 | a fresh store is the clean slate every test starts from: every (partition, execution context) view, the ambient one included, reads `{}`, and no partition has been handed out |
| `ThreadLocal.Store.Touch` | tests/test_threadlocal.py:348-359 | the access creates the mapping of (partition, execution context) empty if it is absent and changes nothing else |
| `ThreadLocal.Store.BindThreadLocal` | tests/test_threadlocal.py:319-329 | the ambient mapping of the calling execution context becomes its old value updated with the keywords; no other mapping changes |
| `ThreadLocal.Store.BindThreadLocalInTurn` | tests/test_threadlocal.py:319-329 | successive `bind_threadlocal` calls leave the ambient mapping of the calling context equal to `BindAll` of its old value over the keyword sets, so the `BindAll` lemmas hold of the store; no other view changes |
| `ThreadLocal.Store.UnbindThreadLocal` | tests/test_threadlocal.py:331-346 | the ambient mapping of the calling context becomes its old value with the keys popped in order; nothing else changes |
| `ThreadLocal.Store.ClearThreadLocal` | tests/test_threadlocal.py:302-310 | the ambient mapping of the calling context becomes empty; nothing else changes |
| `ThreadLocal.Store.GetThreadLocal` | tests/test_threadlocal.py:348-359 | returns the ambient mapping of the calling context (`{}` if never touched) and creates it if absent |
| `ThreadLocal.Store.MergeThreadLocal` | tests/test_threadlocal.py:293-317 | returns the ambient mapping updated with the event dictionary, as a new value; the store only gains the lazily created mapping |
| `ThreadLocal.Store.GetMergedThreadLocal` | tests/test_threadlocal.py:361-370 | returns the ambient mapping updated with the logger's own context, as a new value; the store only gains lazily created mappings |
| `ThreadLocal.Store.WrapDict` | tests/test_threadlocal.py:135-149 | a new partition distinct from every earlier one and from the ambient one, with an empty mapping in every execution context; the tables are unchanged |
| `ThreadLocal.Store.NewHandle` | tests/test_threadlocal.py:177-199 | a handle of the partition whose shared mapping for the calling context gains the source's items and then the keywords; a handle of another partition as source is a TypeConflict with no change |
| `ThreadLocal.Store.Items` | tests/test_threadlocal.py:154-175 | a handle's dictionary is its partition's mapping for the calling execution context, created if absent |
| `ThreadLocal.Store.GetItem` | tests/test_threadlocal.py:170-175 | reading a key gives its value in the calling context's mapping, or a KeyError when it is absent |
| `ThreadLocal.Store.SetItem` | tests/test_threadlocal.py:164-170 | setting a key changes only the calling context's mapping of the handle's partition |
| `ThreadLocal.Store.DelItem` | tests/test_threadlocal.py:266-277 | deleting a present key removes it from the calling context's mapping; an absent key is a KeyError and changes no mapping |
| `ThreadLocal.Store.Iter` | tests/test_threadlocal.py:201-207 | iterating a handle yields each key of the calling context's mapping exactly once |
| `ThreadLocal.Store.Len` | tests/test_threadlocal.py:279-283 | the length is the number of keys of the calling context's mapping, zero exactly when it is empty |
| `ThreadLocal.Store.Clear` | tests/test_threadlocal.py:209-216 | clearing empties the calling context's mapping of the partition and nothing else |
| `ThreadLocal.Store.HandleEquals` | tests/test_threadlocal.py:177-191 | handles are equal if and only if they belong to the same partition (the same wrapped class); equal handles see one mapping in every execution context |
| `ThreadLocal.Store.BindLogger` | tests/test_threadlocal.py:100-113 | the bound logger sees the old context updated with the keywords; a shared context is extended in place in the calling context only, a detached one is copied and the store is untouched |
| `ThreadLocal.Store.NewLogger` | tests/test_threadlocal.py:105-113 | the new logger sees exactly the keywords; a shared context is reset in place, a detached one leaves the store untouched |
| `ThreadLocal.Store.AsImmutable` | tests/test_threadlocal.py:100-131 | the result has a detached context equal to what the logger sees, and a logger that is already detached comes back unchanged (idempotence) |
| `ThreadLocal.Store.Restore` | tests/test_threadlocal.py:75-81 | clearing and refilling from the saved copy sets the mapping to exactly the saved copy |
| `ThreadLocal.Store.TmpBindEnter` | tests/test_threadlocal.py:75-80 | on entry the saved copy is the logger's context; the yielded logger sees that context plus the keywords, and for a shared context the original logger sees the same mapping, which is the only entry of the store that changes |
| `ThreadLocal.Store.TmpBindExit` | tests/test_threadlocal.py:81-97 | on normal or exceptional exit a shared context becomes exactly the saved copy, no other entry changes, and the body's outcome is passed on unchanged |
| `ThreadLocal.Store.TmpBind` | tests/test_threadlocal.py:69-97 | a whole scope, whatever its body binds through the yielded logger and however it ends, leaves the logger's context and the whole store as they were on entry, and passes the outcome on |
| `Scenarios.WrappedLogger` | tests/test_threadlocal.py:52-57 | a logger whose context class is a fresh `wrap_dict` partition, empty in every execution context |
| `Scenarios.TmpBindScenario` | tests/test_threadlocal.py:69-97 | between entry and exit both loggers, read from the store, see `{y: "foo", x: 42}`; afterwards the context is `{y: 23}` whether or not the body raised, and the exception propagates |
| `Scenarios.AsImmutableScenario` | tests/test_threadlocal.py:100-131 | the detached copy bound with `y=23` is `{x: 42, y: 23}` while the original stays `{x: 42}`; converting a detached logger again gives a detached logger |
| `Scenarios.DistinctPartitionsScenario` | tests/test_threadlocal.py:135-144 | two `wrap_dict` calls give distinct partitions |
| `Scenarios.OtherExecutionContextScenario` | tests/test_threadlocal.py:154-175 | for any keys: another thread or greenlet (also tests/test_threadlocal.py:227-242) does not see the main thread's key, and its own write leaves the main thread's value at 42 |
| `Scenarios.SharedPartitionScenario` | tests/test_threadlocal.py:177-186 | `D({a: 42})`, `D({b: 23})`, `D()` all see `{a: 42, b: 23}` and are equal |
| `Scenarios.DistinctPartitionEqualityScenario` | tests/test_threadlocal.py:188-191 | handles of two partitions holding the same items are not equal |
| `Scenarios.InitWithItselfScenario` | tests/test_threadlocal.py:193-199 | `D(d, b=23)` sees `{a: 42, b: 23}` |
| `Scenarios.IterScenario` | tests/test_threadlocal.py:201-207 | iterating `D({a: 42})` yields `["a"]` |
| `Scenarios.ClearScenario` | tests/test_threadlocal.py:209-216 | after `clear()` the length is 0 |
| `Scenarios.DelScenario` | tests/test_threadlocal.py:266-277 | a set key reads back 13, and after `del` it is gone and the dictionary is `{}` again |
| `Scenarios.NewClassScenario` | tests/test_threadlocal.py:279-283 | a handle of a fresh partition has length 0 |
| `Scenarios.BindAndMergeScenario` | tests/test_threadlocal.py:293-300 | `bind(a=1)` then merging `{b: 2}` gives `{a: 1, b: 2}` |
| `Scenarios.ClearThreadLocalScenario` | tests/test_threadlocal.py:302-310 | after bind and clear, merging `{b: 2}` gives `{b: 2}` |
| `Scenarios.MergeWithoutBindScenario` | tests/test_threadlocal.py:312-317 | with nothing bound, merging `{b: 2}` gives `{b: 2}` |
| `Scenarios.MultipleBindsScenario` | tests/test_threadlocal.py:319-329 | two binds accumulate to `{a: 1, b: 2, c: 3}` in the merge |
| `Scenarios.UnbindScenario` | tests/test_threadlocal.py:331-346 | `{a: 234, b: 34}`, then `{b: 34}` after unbinding `a`, still `{b: 34}` after unbinding an absent key |
| `Scenarios.GetWithoutContextScenario` | tests/test_threadlocal.py:348-359 | with no ambient mapping, get returns `{}` and the mapping exists afterwards |
| `Scenarios.GetMergedScenario` | tests/test_threadlocal.py:361-370 | ambient `{x: 1}` merged with a logger bound with `y=2` gives `{x: 1, y: 2}` |

## Left out

- Real threads, greenlets, `threading.local` and the choice between them. The execution context is an explicit `ExecutionId` parameter, and each operation runs to completion, so there is no interleaving.
- The logger pipeline: `wrap_logger`, processors, `ReturnLogger`, `structlog.get_logger` and the wrapped logger. A bound logger is modelled only by its context. The default logger of `get_logger()` is modelled as a logger with an empty detached context.
- The lazy-proxy path of `as_immutable`, which resolves a `BoundLoggerLazyProxy` first. That path depends on configuration code. The input here is already a concrete logger.
- `repr` of a handle, which includes a generated class name.
- Class attributes on wrapped classes (`D1.x = 42`), the `_tl` object, `__delattr__` and its `AttributeError` message, and blanket delegation of other dict methods. Only get/set/delete item, iteration, length, clear and equality are modelled.
- The alias `merge_threadlocal_context` (the same function as `merge_threadlocal`) and the pytest fixtures.
- The unused `logger` and `method_name` arguments of `merge_threadlocal`. They are dropped from `MergeThreadLocal`.
- Insertion order of dictionary keys. `Contexts.KeysOf` and `Store.Iter` promise every key exactly once, in no particular order.
- Values are integers or strings (`Value`), not arbitrary Python objects.
- Reference semantics of plain dictionaries. A detached context is a value, so nothing can alias it. In particular, `logger.new()` on a detached logger clears that logger's dictionary in place. This is visible to anyone else holding that dictionary, and the model does not capture it.
- ThreadLocal.Store.TmpBind: the scope body is represented by the keywords it binds through the yielded logger (`bodyKw`) and by how it ends (`body`); other bodies, nested scopes included, are written by calling `TmpBindEnter` and `TmpBindExit` around them.
- ThreadLocal.Store.AsImmutable: reading a shared context does not model the lazy creation of its mapping. That creation changes no mapping's contents.
