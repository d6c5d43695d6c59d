/**
 * Context mappings: the string-keyed dictionaries that the thread-local store
 * keeps, one per (partition, execution context), and the dictionary
 * operations the store performs on them (update, pop, key iteration).
 */
module Contexts {

  /** The values bound in a context; the store never looks inside them. */
  datatype Value = Int(i: int) | Str(s: string)

  /** One context mapping: a dictionary from string keys to values. */
  type Context = map<string, Value>

  /** The failures the store and its handles can report. */
  datatype Error =
    | KeyError(key: string)    // reading or deleting an absent key of a handle
    | TypeConflict             // a handle built from a handle of another partition
    | Raised(name: string)     // an exception raised by the body of a temporary-binding scope

  datatype Result<T> = Ok(value: T) | Err(error: Error)

  datatype Outcome = Pass | Fail(error: Error)

  /**
   * Dictionary update: every key of `overrides` takes its value from
   * `overrides`, every other key of `base` keeps its value.  This is how
   * binding merges keyword arguments into a context, and how merging folds
   * one context into another (the second argument wins on a shared key).
   */
  function Update(base: Context, overrides: Context): (r: Context)
    ensures r.Keys == base.Keys + overrides.Keys
    ensures forall k :: k in overrides ==> r[k] == overrides[k]
    ensures forall k :: k in base && k !in overrides ==> r[k] == base[k]
  {
    base + overrides
  }

  /** Removal of one key that is not an error when the key is absent. */
  function Pop(ctx: Context, key: string): (r: Context)
    ensures key !in r
    ensures forall k :: k != key ==> (k in r <==> k in ctx)
    ensures forall k :: k in r ==> r[k] == ctx[k]
  {
    ctx - {key}
  }

  /** The keys listed in `keys`. */
  function KeySet(keys: seq<string>): set<string>
  {
    set k | k in keys
  }

  /** Removal of each of `keys` in turn; absent keys are skipped silently. */
  function Unbind(ctx: Context, keys: seq<string>): (r: Context)
    ensures r.Keys == ctx.Keys - KeySet(keys)
    ensures forall k :: k in r ==> r[k] == ctx[k]
    decreases |keys|
  {
    if keys == [] then ctx
    else
      var prefix := keys[..|keys| - 1];
      assert KeySet(keys) == KeySet(prefix) + {keys[|keys| - 1]} by {
        assert keys == prefix + [keys[|keys| - 1]];
      }
      Pop(Unbind(ctx, prefix), keys[|keys| - 1])
  }

  /** The context after binding each keyword set of `binds` in turn, left to right. */
  function BindAll(ctx: Context, binds: seq<Context>): (r: Context)
    ensures forall k :: k in ctx ==> k in r
    ensures binds != [] ==> forall k :: k in binds[|binds| - 1] ==> k in r && r[k] == binds[|binds| - 1][k]
    decreases |binds|
  {
    if binds == [] then ctx
    else Update(BindAll(ctx, binds[..|binds| - 1]), binds[|binds| - 1])
  }

  /** Successive binds accumulate: a key is bound iff it was there before or some bind set it. */
  lemma {:induction false} BindAllKeys(ctx: Context, binds: seq<Context>, k: string)
    ensures k in BindAll(ctx, binds) <==> k in ctx || exists i :: 0 <= i < |binds| && k in binds[i]
    decreases |binds|
  {
    if binds != [] {
      var prefix := binds[..|binds| - 1];
      BindAllKeys(ctx, prefix, k);
      if exists i :: 0 <= i < |binds| && k in binds[i] {
        var i :| 0 <= i < |binds| && k in binds[i];
        if i < |binds| - 1 {
          assert k in prefix[i];
        }
      }
      if exists i :: 0 <= i < |prefix| && k in prefix[i] {
        var i :| 0 <= i < |prefix| && k in prefix[i];
        assert k in binds[i];
      }
    }
  }

  /** A later bind overrides every earlier one for the same key. */
  lemma {:induction false} BindAllLastWins(ctx: Context, binds: seq<Context>, j: nat, k: string)
    requires j < |binds| && k in binds[j]
    requires forall i :: j < i < |binds| ==> k !in binds[i]
    ensures k in BindAll(ctx, binds) && BindAll(ctx, binds)[k] == binds[j][k]
    decreases |binds|
  {
    var prefix := binds[..|binds| - 1];
    if j < |binds| - 1 {
      assert forall i :: j < i < |prefix| ==> k !in prefix[i] by {
        forall i | j < i < |prefix| ensures k !in prefix[i] {
          assert prefix[i] == binds[i];
        }
      }
      BindAllLastWins(ctx, prefix, j, k);
    }
  }

  /** A key that no bind mentions keeps the value it had before the binds. */
  lemma {:induction false} BindAllKeepsUnbound(ctx: Context, binds: seq<Context>, k: string)
    requires k in ctx
    requires forall i :: 0 <= i < |binds| ==> k !in binds[i]
    ensures k in BindAll(ctx, binds) && BindAll(ctx, binds)[k] == ctx[k]
    decreases |binds|
  {
    if binds != [] {
      var prefix := binds[..|binds| - 1];
      assert forall i :: 0 <= i < |prefix| ==> k !in prefix[i] by {
        forall i | 0 <= i < |prefix| ensures k !in prefix[i] {
          assert prefix[i] == binds[i];
        }
      }
      BindAllKeepsUnbound(ctx, prefix, k);
    }
  }

  /** Merging into an empty context gives back the merged dictionary itself. */
  lemma UpdateOfEmpty(overrides: Context)
    ensures Update(map[], overrides) == overrides
  {
  }

  /** Updating a dictionary with its own items changes nothing. */
  lemma UpdateWithItself(ctx: Context)
    ensures Update(ctx, ctx) == ctx
  {
  }

  /** Setting a fresh key and then deleting it restores the dictionary. */
  lemma SetThenPop(ctx: Context, key: string, v: Value)
    requires key !in ctx
    ensures Pop(ctx[key := v], key) == ctx
  {
  }

  /** Unbinding a single key is popping it. */
  lemma UnbindOne(ctx: Context, key: string)
    ensures Unbind(ctx, [key]) == Pop(ctx, key)
  {
  }

  /** Unbinding a key that is absent is a no-op. */
  lemma UnbindAbsent(ctx: Context, keys: seq<string>)
    requires forall i :: 0 <= i < |keys| ==> keys[i] !in ctx
    ensures Unbind(ctx, keys) == ctx
  {
  }

  /**
   * Iteration over a dictionary: every key exactly once.  The order in which
   * the keys come out is not part of this model.
   */
  method KeysOf(m: Context) returns (ks: seq<string>)
    ensures |ks| == |m|
    ensures forall i, j :: 0 <= i < j < |ks| ==> ks[i] != ks[j]
    ensures forall k :: k in ks <==> k in m
  {
    ks := [];
    var rest := m.Keys;
    while rest != {}
      invariant rest <= m.Keys
      invariant forall k :: k in ks ==> k in m && k !in rest
      invariant forall k :: k in m ==> k in ks || k in rest
      invariant forall i, j :: 0 <= i < j < |ks| ==> ks[i] != ks[j]
      invariant |ks| + |rest| == |m|
      decreases rest
    {
      var k :| k in rest;
      ks := ks + [k];
      rest := rest - {k};
    }
  }
}
