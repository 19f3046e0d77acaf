/** src/snakeoil/_klass.py: generic helpers that classes install as methods.
    A mapping is seen through its `__getitem__`, which either gives a value
    or raises; objects are Dafny objects (so `is` is reference identity)
    holding their instance attributes in a map. */
module Klass {
  import opened Common

  /** `self[key]` on a dict. */
  function DictGetItem<K, V>(m: map<K, V>): K -> Result<V>
  {
    k => if k in m then Ok(m[k]) else Err(KeyError)
  }

  /** `contains(self, key)`: true when the lookup succeeds, false when it
      raises KeyError; any other exception of the lookup propagates. */
  function Contains<K, V>(getitem: K -> Result<V>, key: K): (r: Result<bool>)
    ensures r == Ok(true) <==> getitem(key).Ok?
    ensures r == Ok(false) <==> getitem(key) == Err(KeyError)
    ensures r.Err? <==> getitem(key).Err? && getitem(key).error != KeyError
    ensures r.Err? ==> r.error == getitem(key).error
  {
    match getitem(key)
    case Ok(_) => Ok(true)
    case Err(e) => if e == KeyError then Ok(false) else Err(e)
  }

  /** `get(self, key, default)`: the looked-up value, `default` when the
      lookup raises KeyError; any other exception propagates. */
  function Get<K, V>(getitem: K -> Result<V>, key: K, default: V): (r: Result<V>)
    ensures getitem(key).Ok? ==> r == getitem(key)
    ensures getitem(key) == Err(KeyError) ==> r == Ok(default)
    ensures r.Err? <==> getitem(key).Err? && getitem(key).error != KeyError
  {
    match getitem(key)
    case Ok(v) => Ok(v)
    case Err(e) => if e == KeyError then Ok(default) else Err(e)
  }

  /** On a dict, `contains` is membership and `get` is the lookup with a
      fallback; `get` succeeds exactly when `contains` says true or false,
      and it gives the default only for a missing key. */
  lemma DictContainsGet<K, V>(m: map<K, V>, key: K, default: V)
    ensures Contains(DictGetItem(m), key) == Ok(key in m)
    ensures Get(DictGetItem(m), key, default) == Ok(if key in m then m[key] else default)
  {
    var f := DictGetItem(m);
    assert f(key) == if key in m then Ok(m[key]) else Err(KeyError);
  }

  /** A Python object: its instance attributes and, as seen through its
      class, its `__attr_comparison__` (None when it has none). */
  class Obj {
    var attrs: map<string, Value>
    const attrComparison: Option<seq<string>>

    constructor (attrs: map<string, Value>, attrComparison: Option<seq<string>>)
      ensures this.attrs == attrs && this.attrComparison == attrComparison
    {
      this.attrs, this.attrComparison := attrs, attrComparison;
    }
  }

  /** `getattr(inst, attr, _sentinel)`: None stands for the sentinel, which
      equals only itself. */
  function AttrOrSentinel(o: Obj, attr: string): (r: Option<Value>)
    reads o
    ensures r.Some? <==> attr in o.attrs
    ensures r.Some? ==> r.value == o.attrs[attr]
  {
    if attr in o.attrs then Some(o.attrs[attr]) else None
  }

  /** The two objects agree on every listed attribute, a missing attribute
      agreeing only with a missing one. */
  ghost predicate AgreeOn(a: Obj, b: Obj, names: seq<string>)
    reads a, b
  {
    forall i :: 0 <= i < |names| ==> AttrOrSentinel(a, names[i]) == AttrOrSentinel(b, names[i])
  }

  /** What `generic_attr_eq` is meant to compute: identical objects are
      equal; otherwise the list comes from `inst1` alone (AttributeError
      when it has none) and the objects are equal when they agree on it. */
  ghost function AttrEqSpec(inst1: Obj, inst2: Obj): Result<bool>
    reads inst1, inst2
  {
    if inst1 == inst2 then Ok(true)
    else match inst1.attrComparison
      case None => Err(AttributeError)
      case Some(names) => Ok(AgreeOn(inst1, inst2, names))
  }

  /** `generic_attr_eq`: an early-return search for the first listed
      attribute on which the objects differ. */
  method AttrEq(inst1: Obj, inst2: Obj) returns (r: Result<bool>)
    ensures r == AttrEqSpec(inst1, inst2)
  {
    if inst1 == inst2 {
      return Ok(true);
    }
    if inst1.attrComparison.None? {
      return Err(AttributeError);
    }
    var names := inst1.attrComparison.value;
    for i := 0 to |names|
      invariant AgreeOn(inst1, inst2, names[..i])
    {
      if AttrOrSentinel(inst1, names[i]) != AttrOrSentinel(inst2, names[i]) {
        return Ok(false);
      }
    }
    assert names[..|names|] == names;
    return Ok(true);
  }

  /** `generic_attr_ne`: the same search with the answers swapped, so that it
      is the exact complement of `generic_attr_eq` and fails in the same
      cases. */
  method AttrNe(inst1: Obj, inst2: Obj) returns (r: Result<bool>)
    ensures r.Ok? <==> AttrEqSpec(inst1, inst2).Ok?
    ensures r.Ok? ==> r.value == !AttrEqSpec(inst1, inst2).value
    ensures r.Err? ==> r.error == AttrEqSpec(inst1, inst2).error
  {
    if inst1 == inst2 {
      return Ok(false);
    }
    if inst1.attrComparison.None? {
      return Err(AttributeError);
    }
    var names := inst1.attrComparison.value;
    for i := 0 to |names|
      invariant AgreeOn(inst1, inst2, names[..i])
    {
      if AttrOrSentinel(inst1, names[i]) != AttrOrSentinel(inst2, names[i]) {
        return Ok(true);
      }
    }
    assert names[..|names|] == names;
    return Ok(false);
  }

  /** Attribute equality is symmetric between objects that compare on the
      same list, and every object equals itself even without a list. */
  lemma AttrEqSymmetric(a: Obj, b: Obj)
    requires a.attrComparison == b.attrComparison
    ensures AttrEqSpec(a, b) == AttrEqSpec(b, a)
    ensures AttrEqSpec(a, a) == Ok(true)
  {
  }

  /** Objects with the same value for every listed attribute are equal,
      whichever other attributes they have. */
  lemma AttrEqIgnoresUnlisted(a: Obj, b: Obj, names: seq<string>)
    requires a.attrComparison == Some(names)
    requires forall n :: n in names ==> (n in a.attrs <==> n in b.attrs)
    requires forall n :: n in names && n in a.attrs ==> a.attrs[n] == b.attrs[n]
    ensures AttrEqSpec(a, b) == Ok(true)
  {
    forall i | 0 <= i < |names|
      ensures AttrOrSentinel(a, names[i]) == AttrOrSentinel(b, names[i])
    {
      assert names[i] in names;
    }
  }

  /** What `_raw_internal_jit_attr.__get__` returns. */
  datatype Got = TheDescriptor | Got(value: Value)

  /** One access through the descriptor on an instance: the value returned,
      the instance's attributes afterwards, and whether the function ran. */
  datatype Access = Access(value: Value, attrs: map<string, Value>, computed: bool)

  /** `_raw_internal_jit_attr`, the compute-once attribute: `compute` is the
      wrapped function of the instance, `storage` the attribute holding the
      cached value, `singleton` the value meaning "not computed yet". */
  class JitAttr {
    const compute: map<string, Value> -> Value
    const storage: string
    const singleton: Value
    const useSingleton: bool

    constructor (compute: map<string, Value> -> Value, storage: string, singleton: Value, useSingleton: bool)
      ensures this.compute == compute && this.storage == storage
      ensures this.singleton == singleton && this.useSingleton == useSingleton
    {
      this.compute, this.storage, this.singleton, this.useSingleton := compute, storage, singleton, useSingleton;
    }

    /** The access rule: recompute and store when the singleton is off, when
        nothing is stored, or when what is stored is the singleton; otherwise
        return what is stored and change nothing. */
    function AccessOn(attrs: map<string, Value>): (r: Access)
      ensures r.computed <==> !useSingleton || storage !in attrs || attrs[storage] == singleton
      ensures r.computed ==> r.value == compute(attrs) && r.attrs == attrs[storage := r.value]
      ensures !r.computed ==> r.value == attrs[storage] && r.attrs == attrs
      ensures storage in r.attrs && r.attrs[storage] == r.value
    {
      if !useSingleton then
        var v := compute(attrs);
        Access(v, attrs[storage := v], true)
      else
        var cached := if storage in attrs then attrs[storage] else singleton;
        if cached == singleton then
          var v := compute(attrs);
          Access(v, attrs[storage := v], true)
        else Access(cached, attrs, false)
    }

    /** `__get__`: on the class (no instance) the descriptor itself; on an
        instance, one access, stored with `object.__setattr__`. */
    method GetOn(instance: Obj?) returns (r: Got, computed: bool)
      modifies instance
      ensures instance == null ==> r == TheDescriptor && !computed
      ensures instance != null ==>
        var a := AccessOn(old(instance.attrs));
        r == Got(a.value) && computed == a.computed && instance.attrs == a.attrs
    {
      if instance == null {
        return TheDescriptor, false;
      }
      if !useSingleton {
        var v := compute(instance.attrs);
        instance.attrs := instance.attrs[storage := v];
        return Got(v), true;
      }
      var cached := if storage in instance.attrs then instance.attrs[storage] else singleton;
      if cached == singleton {
        var v := compute(instance.attrs);
        instance.attrs := instance.attrs[storage := v];
        return Got(v), true;
      }
      return Got(cached), false;
    }

    /** With the singleton on, a value once computed is served from storage
        from then on: the second access returns the same value, runs nothing
        and changes nothing, unless the value computed was the singleton. */
    lemma SecondAccessCached(attrs: map<string, Value>)
      requires useSingleton
      ensures var first := AccessOn(attrs);
        first.value != singleton ==> AccessOn(first.attrs) == Access(first.value, first.attrs, false)
    {
    }

    /** Storing the singleton forces regeneration on the next access. */
    lemma SingletonForcesRegeneration(attrs: map<string, Value>)
      ensures AccessOn(attrs[storage := singleton]).computed
      ensures AccessOn(attrs[storage := singleton]).value == compute(attrs[storage := singleton])
    {
    }

    /** The state after `n` accesses on an instance starting with `attrs`. */
    function AttrsAfter(attrs: map<string, Value>, n: nat): map<string, Value>
      decreases n
    {
      if n == 0 then attrs else AccessOn(AttrsAfter(attrs, n - 1)).attrs
    }

    /** With the singleton on, the function runs at most once: if the first
        access computed something other than the singleton, every later
        access returns that same value without running it again. */
    lemma {:induction false} ComputedOnce(attrs: map<string, Value>, n: nat)
      requires useSingleton && n >= 1
      requires AccessOn(attrs).value != singleton
      ensures AttrsAfter(attrs, n) == AccessOn(attrs).attrs
      ensures AccessOn(AttrsAfter(attrs, n)) == Access(AccessOn(attrs).value, AccessOn(attrs).attrs, false)
      decreases n
    {
      if n > 1 {
        ComputedOnce(attrs, n - 1);
      }
    }

    /** Without the singleton every access runs the function on the current
        state and stores its result, however often it is repeated. */
    lemma NoSingletonAlwaysComputes(attrs: map<string, Value>, n: nat)
      requires !useSingleton
      ensures AccessOn(AttrsAfter(attrs, n)).computed
      ensures AccessOn(AttrsAfter(attrs, n)).value == compute(AttrsAfter(attrs, n))
    {
    }
  }
}
