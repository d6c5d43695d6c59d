/**
 * The thread-local context store: one context mapping per (partition,
 * execution context), created lazily on first access.  Partition 0 is the
 * module-level ambient context behind `bind_threadlocal` and its siblings;
 * every `wrap_dict` call hands out a further, fresh partition whose
 * instances (handles) all share that partition's mapping for the current
 * execution context.  Bound loggers carry either a handle (a shared context)
 * or a plain dictionary (a detached context).
 */
module ThreadLocal {
  import opened Contexts

  /** A partition: the ambient context, or one class made by `wrap_dict`. */
  type PartitionId = nat

  /** The identity of a thread or greenlet, passed explicitly to every operation. */
  type ExecutionId = nat

  /** The partition of the ambient context used by `bind_threadlocal` and its siblings. */
  const AmbientPartition: PartitionId := 0

  type Table = map<(PartitionId, ExecutionId), Context>

  /** The mapping of (p, c) as it reads: empty while it has not been created. */
  function Lookup(t: Table, p: PartitionId, c: ExecutionId): Context
  {
    if (p, c) in t then t[(p, c)] else map[]
  }

  /** The table once the mapping of (p, c) has been accessed, and so created if it was absent. */
  function Touched(t: Table, p: PartitionId, c: ExecutionId): (r: Table)
    ensures (p, c) in r
    ensures forall key :: key in r <==> key in t || key == (p, c)
    ensures forall q, d :: Lookup(r, q, d) == Lookup(t, q, d)
  {
    if (p, c) in t then t else t[(p, c) := map[]]
  }

  /**
   * An instance of a class made by `wrap_dict`.  It holds no items of its
   * own: every access goes to its partition's mapping for the execution
   * context that performs the access.
   */
  datatype Handle = Handle(partition: PartitionId)

  /** What a handle is constructed from, besides keyword arguments. */
  datatype Source = NoItems | Items(items: Context) | OfHandle(handle: Handle)

  /** The items a source contributes, given the current mapping of the partition being constructed. */
  function SourceItems(source: Source, current: Context): Context
  {
    match source
    case NoItems => map[]
    case Items(items) => items
    case OfHandle(_) => current
  }

  /** A bound logger's context: a handle onto a partition, or a detached dictionary. */
  datatype LoggerContext = Shared(handle: Handle) | Detached(items: Context)

  /** A bound logger; its processors and wrapped logger are not part of this model. */
  datatype BoundLogger = BoundLogger(context: LoggerContext)

  class Store {
    /** Every context mapping created so far, by (partition, execution context). */
    var tables: Table
    /** The partition the next `wrap_dict` call hands out. */
    var nextPartition: PartitionId

    /** Only partitions handed out so far (or the ambient one) have mappings. */
    ghost predicate Valid()
      reads this
    {
      && 0 < nextPartition
      && forall key :: key in tables ==> key.0 < nextPartition
    }

    /** `p` was handed out by `wrap_dict`. */
    predicate IsPartition(p: PartitionId)
      reads this
    {
      0 < p < nextPartition
    }

    /** The current mapping of partition `p` for execution context `c`. */
    function View(p: PartitionId, c: ExecutionId): Context
      reads this
    {
      Lookup(tables, p, c)
    }

    /** The context that logger `l` sees when used from execution context `c`. */
    function ContextOf(l: BoundLogger, c: ExecutionId): Context
      reads this
    {
      match l.context
      case Shared(h) => View(h.partition, c)
      case Detached(items) => items
    }

    /** A shared logger context belongs to a partition handed out by `wrap_dict`. */
    predicate Attached(l: BoundLogger)
      reads this
    {
      l.context.Shared? ==> IsPartition(l.context.handle.partition)
    }

    constructor ()
      ensures Valid()
      ensures tables == map[] && nextPartition == 1
    {
      tables := map[];
      nextPartition := 1;
    }

    /** Access to a mapping, creating it empty on first access. */
    method Touch(p: PartitionId, c: ExecutionId)
      requires Valid() && (p == AmbientPartition || IsPartition(p))
      modifies this
      ensures Valid() && nextPartition == old(nextPartition)
      ensures tables == Touched(old(tables), p, c)
    {
      if (p, c) !in tables {
        tables := tables[(p, c) := map[]];
      }
    }

    // ----- the ambient context ------------------------------------------------

    /** `bind_threadlocal(**kw)`: merges `kw` into the ambient mapping of `c`. */
    method BindThreadLocal(c: ExecutionId, kw: Context)
      requires Valid()
      modifies this
      ensures Valid() && nextPartition == old(nextPartition)
      ensures tables == old(tables)[(AmbientPartition, c) := Update(old(View(AmbientPartition, c)), kw)]
    {
      Touch(AmbientPartition, c);
      tables := tables[(AmbientPartition, c) := Update(tables[(AmbientPartition, c)], kw)];
    }

    /**
     * Successive `bind_threadlocal` calls, one per keyword set of `binds`:
     * the ambient mapping of `c` ends as the left-to-right fold `BindAll`.
     */
    method BindThreadLocalInTurn(c: ExecutionId, binds: seq<Context>)
      requires Valid()
      modifies this
      ensures Valid() && nextPartition == old(nextPartition)
      ensures View(AmbientPartition, c) == BindAll(old(View(AmbientPartition, c)), binds)
      ensures forall q: PartitionId, d: ExecutionId :: (q, d) != (AmbientPartition, c) ==> View(q, d) == old(View(q, d))
    {
      ghost var before := View(AmbientPartition, c);
      for i := 0 to |binds|
        invariant Valid() && nextPartition == old(nextPartition)
        invariant View(AmbientPartition, c) == BindAll(before, binds[..i])
        invariant forall q: PartitionId, d: ExecutionId :: (q, d) != (AmbientPartition, c) ==> View(q, d) == old(View(q, d))
      {
        assert binds[..i + 1][..i] == binds[..i];
        BindThreadLocal(c, binds[i]);
      }
      assert binds[..|binds|] == binds;
    }

    /** `unbind_threadlocal(*keys)`: pops each key in turn; an absent key is skipped. */
    method UnbindThreadLocal(c: ExecutionId, keys: seq<string>)
      requires Valid()
      modifies this
      ensures Valid() && nextPartition == old(nextPartition)
      ensures tables == old(tables)[(AmbientPartition, c) := Unbind(old(View(AmbientPartition, c)), keys)]
    {
      ghost var before := View(AmbientPartition, c);
      Touch(AmbientPartition, c);
      for i := 0 to |keys|
        invariant Valid() && nextPartition == old(nextPartition)
        invariant tables == old(tables)[(AmbientPartition, c) := Unbind(before, keys[..i])]
      {
        assert keys[..i + 1][..i] == keys[..i];
        tables := tables[(AmbientPartition, c) := Pop(tables[(AmbientPartition, c)], keys[i])];
      }
      assert keys[..|keys|] == keys;
    }

    /** `clear_threadlocal()`: replaces the ambient mapping of `c` by an empty one. */
    method ClearThreadLocal(c: ExecutionId)
      requires Valid()
      modifies this
      ensures Valid() && nextPartition == old(nextPartition)
      ensures tables == old(tables)[(AmbientPartition, c) := map[]]
    {
      tables := tables[(AmbientPartition, c) := map[]];
    }

    /** `get_threadlocal()`: a copy of the ambient mapping of `c`, created if absent. */
    method GetThreadLocal(c: ExecutionId) returns (r: Context)
      requires Valid()
      modifies this
      ensures Valid() && nextPartition == old(nextPartition)
      ensures r == old(View(AmbientPartition, c))
      ensures tables == Touched(old(tables), AmbientPartition, c)
    {
      Touch(AmbientPartition, c);
      r := tables[(AmbientPartition, c)];
    }

    /**
     * `merge_threadlocal(logger, method_name, event_dict)`: the ambient
     * mapping of `c` updated with the event dictionary, as a new dictionary.
     */
    method MergeThreadLocal(c: ExecutionId, event: Context) returns (r: Context)
      requires Valid()
      modifies this
      ensures Valid() && nextPartition == old(nextPartition)
      ensures r == Update(old(View(AmbientPartition, c)), event)
      ensures tables == Touched(old(tables), AmbientPartition, c)
    {
      var ambient := GetThreadLocal(c);
      r := Update(ambient, event);
    }

    /**
     * `get_merged_threadlocal(bound_logger)`: the ambient mapping of `c`
     * updated with the logger's own context, as a new dictionary.
     */
    method GetMergedThreadLocal(c: ExecutionId, l: BoundLogger) returns (r: Context)
      requires Valid() && Attached(l)
      modifies this
      ensures Valid() && nextPartition == old(nextPartition)
      ensures r == Update(old(View(AmbientPartition, c)), old(ContextOf(l, c)))
      ensures tables == match l.context
                        case Shared(h) => Touched(Touched(old(tables), AmbientPartition, c), h.partition, c)
                        case Detached(_) => Touched(old(tables), AmbientPartition, c)
    {
      var ambient := GetThreadLocal(c);
      var own := ContextOf(l, c);
      if l.context.Shared? {
        Touch(l.context.handle.partition, c);
      }
      r := Update(ambient, own);
    }

    // ----- partitions and their handles ---------------------------------------

    /** `wrap_dict(dict)`: a new partition, isolated from every earlier one and empty everywhere. */
    method WrapDict() returns (p: PartitionId)
      requires Valid()
      modifies this
      ensures Valid() && tables == old(tables)
      ensures p == old(nextPartition) && nextPartition == p + 1
      ensures IsPartition(p) && !old(IsPartition(p)) && p != AmbientPartition
      ensures forall c :: View(p, c) == map[]
    {
      p := nextPartition;
      nextPartition := nextPartition + 1;
    }

    /**
     * Construction of a handle of partition `p` in execution context `c`:
     * the source's items and then `kw` are merged into the shared mapping.
     * A handle of another partition as source is a type conflict.
     */
    method NewHandle(p: PartitionId, c: ExecutionId, source: Source, kw: Context) returns (r: Result<Handle>)
      requires Valid() && IsPartition(p)
      modifies this
      ensures Valid() && nextPartition == old(nextPartition)
      ensures source.OfHandle? && source.handle.partition != p ==>
                r == Err(TypeConflict) && tables == old(tables)
      ensures !(source.OfHandle? && source.handle.partition != p) ==>
                && r == Ok(Handle(p))
                && tables == old(tables)[(p, c) :=
                     Update(Update(old(View(p, c)), SourceItems(source, old(View(p, c)))), kw)]
      ensures source.OfHandle? && source.handle.partition == p ==>
                View(p, c) == Update(old(View(p, c)), kw)
    {
      if source.OfHandle? && source.handle.partition != p {
        return Err(TypeConflict);
      }
      Touch(p, c);
      var current := tables[(p, c)];
      tables := tables[(p, c) := Update(Update(current, SourceItems(source, current)), kw)];
      UpdateWithItself(current);
      r := Ok(Handle(p));
    }

    /** The `_dict` of a handle: its partition's mapping for `c`, created if absent. */
    method Items(h: Handle, c: ExecutionId) returns (r: Context)
      requires Valid() && IsPartition(h.partition)
      modifies this
      ensures Valid() && nextPartition == old(nextPartition)
      ensures r == old(View(h.partition, c))
      ensures tables == Touched(old(tables), h.partition, c)
    {
      Touch(h.partition, c);
      r := tables[(h.partition, c)];
    }

    /** `d._dict[key]`: the value bound to `key` in the handle's dictionary, or a KeyError. */
    method GetItem(h: Handle, c: ExecutionId, key: string) returns (r: Result<Value>)
      requires Valid() && IsPartition(h.partition)
      modifies this
      ensures Valid() && nextPartition == old(nextPartition)
      ensures key in old(View(h.partition, c)) ==> r == Ok(old(View(h.partition, c))[key])
      ensures key !in old(View(h.partition, c)) ==> r == Err(KeyError(key))
      ensures tables == Touched(old(tables), h.partition, c)
    {
      Touch(h.partition, c);
      var current := tables[(h.partition, c)];
      if key in current {
        r := Ok(current[key]);
      } else {
        r := Err(KeyError(key));
      }
    }

    /** `h[key] = v`: binds `key` in the shared mapping of `c`. */
    method SetItem(h: Handle, c: ExecutionId, key: string, v: Value)
      requires Valid() && IsPartition(h.partition)
      modifies this
      ensures Valid() && nextPartition == old(nextPartition)
      ensures tables == old(tables)[(h.partition, c) := old(View(h.partition, c))[key := v]]
    {
      Touch(h.partition, c);
      tables := tables[(h.partition, c) := tables[(h.partition, c)][key := v]];
    }

    /** `del h[key]`: removes a present key; an absent key is a KeyError and changes nothing. */
    method DelItem(h: Handle, c: ExecutionId, key: string) returns (r: Outcome)
      requires Valid() && IsPartition(h.partition)
      modifies this
      ensures Valid() && nextPartition == old(nextPartition)
      ensures key in old(View(h.partition, c)) ==>
                r == Pass && tables == old(tables)[(h.partition, c) := Pop(old(View(h.partition, c)), key)]
      ensures key !in old(View(h.partition, c)) ==>
                r == Fail(KeyError(key)) && tables == Touched(old(tables), h.partition, c)
    {
      Touch(h.partition, c);
      if key in tables[(h.partition, c)] {
        tables := tables[(h.partition, c) := Pop(tables[(h.partition, c)], key)];
        r := Pass;
      } else {
        r := Fail(KeyError(key));
      }
    }

    /** `iter(h)`: each key of the shared mapping of `c` exactly once. */
    method Iter(h: Handle, c: ExecutionId) returns (ks: seq<string>)
      requires Valid() && IsPartition(h.partition)
      modifies this
      ensures Valid() && nextPartition == old(nextPartition)
      ensures |ks| == |old(View(h.partition, c))|
      ensures forall i, j :: 0 <= i < j < |ks| ==> ks[i] != ks[j]
      ensures forall k :: k in ks <==> k in old(View(h.partition, c))
      ensures tables == Touched(old(tables), h.partition, c)
    {
      Touch(h.partition, c);
      ks := KeysOf(tables[(h.partition, c)]);
    }

    /** `len(h)`: the number of keys of the shared mapping of `c`. */
    method Len(h: Handle, c: ExecutionId) returns (n: nat)
      requires Valid() && IsPartition(h.partition)
      modifies this
      ensures Valid() && nextPartition == old(nextPartition)
      ensures n == |old(View(h.partition, c))|
      ensures n == 0 <==> old(View(h.partition, c)) == map[]
      ensures tables == Touched(old(tables), h.partition, c)
    {
      Touch(h.partition, c);
      n := |tables[(h.partition, c)]|;
      if n == 0 {
        assert tables[(h.partition, c)].Keys == {};
      }
    }

    /** `h.clear()`: empties the shared mapping of `c`. */
    method Clear(h: Handle, c: ExecutionId)
      requires Valid() && IsPartition(h.partition)
      modifies this
      ensures Valid() && nextPartition == old(nextPartition)
      ensures tables == old(tables)[(h.partition, c) := map[]]
    {
      Touch(h.partition, c);
      tables := tables[(h.partition, c) := map[]];
    }

    /**
     * `h1 == h2`: two handles are equal exactly when they are instances of
     * the same class, whatever their mappings hold; equal handles see one
     * mapping in every execution context.
     */
    predicate HandleEquals(a: Handle, b: Handle)
      reads this
      ensures HandleEquals(a, b) ==> forall c :: View(a.partition, c) == View(b.partition, c)
      ensures a.partition == b.partition ==> HandleEquals(a, b)
      ensures a.partition != b.partition ==> !HandleEquals(a, b)
    {
      a.partition == b.partition
    }

    // ----- bound loggers --------------------------------------------------------

    /**
     * `logger.bind(**kw)`: a shared context is extended in place through a
     * new handle of the same partition; a detached one is copied and extended.
     */
    method BindLogger(l: BoundLogger, c: ExecutionId, kw: Context) returns (r: BoundLogger)
      requires Valid() && Attached(l)
      modifies this
      ensures Valid() && nextPartition == old(nextPartition)
      ensures Attached(r) && r.context.Shared? == l.context.Shared?
      ensures ContextOf(r, c) == Update(old(ContextOf(l, c)), kw)
      ensures l.context.Shared? ==>
                && r.context == l.context
                && tables == old(tables)[(l.context.handle.partition, c) := Update(old(ContextOf(l, c)), kw)]
      ensures l.context.Detached? ==> tables == old(tables)
    {
      match l.context
      case Shared(h) =>
        var res := NewHandle(h.partition, c, OfHandle(h), kw);
        r := BoundLogger(Shared(res.value));
      case Detached(items) =>
        r := BoundLogger(Detached(Update(items, kw)));
    }

    /** `logger.new(**kw)`: clears the logger's context, then binds `kw`. */
    method NewLogger(l: BoundLogger, c: ExecutionId, kw: Context) returns (r: BoundLogger)
      requires Valid() && Attached(l)
      modifies this
      ensures Valid() && nextPartition == old(nextPartition)
      ensures Attached(r) && r.context.Shared? == l.context.Shared?
      ensures ContextOf(r, c) == kw
      ensures l.context.Shared? ==>
                && r.context == l.context
                && tables == old(tables)[(l.context.handle.partition, c) := kw]
      ensures l.context.Detached? ==> tables == old(tables)
    {
      UpdateOfEmpty(kw);
      match l.context
      case Shared(h) =>
        Clear(h, c);
        r := BindLogger(l, c, kw);
      case Detached(_) =>
        r := BindLogger(BoundLogger(Detached(map[])), c, kw);
    }

    /**
     * `as_immutable(logger)`: a logger whose context is a detached copy of
     * what `l` sees from `c`; a logger that is already detached comes back as it is.
     */
    function AsImmutable(l: BoundLogger, c: ExecutionId): (r: BoundLogger)
      reads this
      ensures r.context.Detached?
      ensures ContextOf(r, c) == ContextOf(l, c)
      ensures l.context.Detached? ==> r == l
    {
      BoundLogger(Detached(ContextOf(l, c)))
    }

    /** The `finally` clause of a temporary binding: `h.clear()`, then `h.update(saved)`. */
    method Restore(h: Handle, c: ExecutionId, saved: Context)
      requires Valid() && IsPartition(h.partition)
      modifies this
      ensures Valid() && nextPartition == old(nextPartition)
      ensures tables == old(tables)[(h.partition, c) := saved]
    {
      Clear(h, c);
      UpdateOfEmpty(saved);
      tables := tables[(h.partition, c) := Update(tables[(h.partition, c)], saved)];
    }

    /**
     * Entry of `with tmp_bind(logger, **kw) as tmp`: the logger's context is
     * saved as a detached copy and `kw` is bound on it.  Inside the scope
     * `tmp` sees the saved context plus `kw`; for a shared context the
     * original logger sees the very same mapping, for a detached one it
     * keeps its own.
     */
    method TmpBindEnter(l: BoundLogger, c: ExecutionId, kw: Context) returns (tmp: BoundLogger, saved: Context)
      requires Valid() && Attached(l)
      modifies this
      ensures Valid() && nextPartition == old(nextPartition)
      ensures saved == old(ContextOf(l, c))
      ensures Attached(tmp) && tmp.context.Shared? == l.context.Shared?
      ensures ContextOf(tmp, c) == Update(saved, kw)
      ensures l.context.Shared? ==>
                && tmp.context == l.context
                && ContextOf(l, c) == ContextOf(tmp, c)
                && tables == old(tables)[(l.context.handle.partition, c) := Update(saved, kw)]
      ensures l.context.Detached? ==> tables == old(tables)
    {
      saved := AsImmutable(l, c).context.items;
      tmp := BindLogger(l, c, kw);
    }

    /**
     * Exit of the scope, after a normal end or an exception: the `finally`
     * clause clears the logger's context and refills it from the saved copy,
     * and the body's outcome is passed on unchanged.  A detached context was
     * copied, never changed, by the binds inside the scope, so the store is
     * left as it is.
     */
    method TmpBindExit(l: BoundLogger, c: ExecutionId, saved: Context, body: Outcome) returns (propagated: Outcome)
      requires Valid() && Attached(l)
      modifies this
      ensures Valid() && nextPartition == old(nextPartition)
      ensures l.context.Shared? ==>
                && ContextOf(l, c) == saved
                && tables == old(tables)[(l.context.handle.partition, c) := saved]
      ensures l.context.Detached? ==> tables == old(tables)
      ensures propagated == body
    {
      if l.context.Shared? {
        Restore(l.context.handle, c, saved);
      }
      propagated := body;
    }

    /**
     * A whole `with tmp_bind(logger, **kw) as tmp: body` scope whose body
     * binds `bodyKw` through `tmp` and ends with `body`: whatever the body
     * bound and however it ended, the logger's context and the whole store
     * are as they were on entry, and the outcome is passed on.
     */
    method TmpBind(l: BoundLogger, c: ExecutionId, kw: Context, bodyKw: Context, body: Outcome)
      returns (propagated: Outcome)
      requires Valid() && Attached(l)
      modifies this
      ensures Valid() && nextPartition == old(nextPartition)
      ensures ContextOf(l, c) == old(ContextOf(l, c))
      ensures l.context.Shared? ==>
                tables == old(tables)[(l.context.handle.partition, c) := old(ContextOf(l, c))]
      ensures l.context.Detached? ==> tables == old(tables)
      ensures propagated == body
    {
      var tmp, saved := TmpBindEnter(l, c, kw);
      var _ := BindLogger(tmp, c, bodyKw);
      propagated := TmpBindExit(l, c, saved, body);
    }
  }
}
