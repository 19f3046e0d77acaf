/** src/snakeoil/klass/deprecated.py: namespace injectors, comparisons derived
    from the sign of `__cmp__`, the `ImmutableInstance` base and
    `steal_docs`. A class namespace (`scope`, the `locals()` of a class body)
    is a `Namespace` object whose entries the injectors update in place. */
module Deprecated {
  import opened Common

  /** The six rich comparisons. */
  datatype CmpOp = Lt | Le | Eq | Ne | Ge | Gt

  /** What a namespace entry can be, as far as the injectors are concerned. */
  datatype Member =
    | ImmutableSetAttr         // ImmutableInstance.__setattr__
    | ImmutableDelAttr         // ImmutableInstance.__delattr__
    | GenericCmp(op: CmpOp)    // one of the __generic_* functions
    | UserDefined(code: nat)   // anything the class body defined itself

  /** `__generic_lt` … `__generic_gt`: the answer of each comparison given
      the integer `self.__cmp__(other)`. */
  function Generic(op: CmpOp, c: int): bool
  {
    match op
    case Lt => c < 0
    case Le => c <= 0
    case Eq => c == 0
    case Ne => c != 0
    case Ge => c >= 0
    case Gt => c > 0
  }

  /** The derived comparisons fit together like an order: eq and ne are
      complements, exactly one of lt, eq and gt holds, le is lt or eq, ge is
      gt or eq, and lt and ge (gt and le) are complements. */
  lemma GenericConsistent(c: int)
    ensures Generic(Eq, c) == !Generic(Ne, c)
    ensures Generic(Lt, c) || Generic(Eq, c) || Generic(Gt, c)
    ensures !(Generic(Lt, c) && Generic(Eq, c)) && !(Generic(Lt, c) && Generic(Gt, c)) && !(Generic(Eq, c) && Generic(Gt, c))
    ensures Generic(Le, c) == (Generic(Lt, c) || Generic(Eq, c))
    ensures Generic(Ge, c) == (Generic(Gt, c) || Generic(Eq, c))
    ensures Generic(Lt, c) == !Generic(Ge, c) && Generic(Gt, c) == !Generic(Le, c)
  {
  }

  /** A class namespace being built. */
  class Namespace {
    var entries: map<string, Member>

    constructor (entries: map<string, Member>)
      ensures this.entries == entries
    {
      this.entries := entries;
    }

    /** `scope.setdefault(key, v)`: adds `key` only when it is absent, and
        returns what is bound to it afterwards. */
    method SetDefault(key: string, v: Member) returns (bound: Member)
      modifies this
      ensures entries == WithDefaults(old(entries), [(key, v)])
      ensures key in entries && bound == entries[key]
    {
      assert [(key, v)][..0] == [];
      if key !in entries {
        entries := entries[key := v];
      }
      bound := entries[key];
    }

    /** `inject_immutable_instance(scope)`. */
    method InjectImmutableInstance()
      modifies this
      ensures entries == WithDefaults(old(entries), ImmutableDefaults)
    {
      var _ := SetDefault("__setattr__", ImmutableSetAttr);
      var _ := SetDefault("__delattr__", ImmutableDelAttr);
      WithDefaultsAppend(old(entries), [("__setattr__", ImmutableSetAttr)], ("__delattr__", ImmutableDelAttr));
      assert ImmutableDefaults == [("__setattr__", ImmutableSetAttr)] + [("__delattr__", ImmutableDelAttr)];
    }

    /** `inject_richcmp_methods_from_cmp(scope)`: a loop over the six
        comparison keys, each installed with `setdefault`. */
    method InjectRichcmp()
      modifies this
      ensures entries == WithDefaults(old(entries), RichcmpDefaults)
    {
      for i := 0 to |RichcmpDefaults|
        invariant entries == WithDefaults(old(entries), RichcmpDefaults[..i])
      {
        var (key, func) := RichcmpDefaults[i];
        var _ := SetDefault(key, func);
        WithDefaultsAppend(old(entries), RichcmpDefaults[..i], (key, func));
        assert RichcmpDefaults[..i] + [(key, func)] == RichcmpDefaults[..i + 1];
      }
      assert RichcmpDefaults[..|RichcmpDefaults|] == RichcmpDefaults;
    }
  }

  const ImmutableDefaults: seq<(string, Member)> :=
    [("__setattr__", ImmutableSetAttr), ("__delattr__", ImmutableDelAttr)]

  const RichcmpDefaults: seq<(string, Member)> :=
    [("__lt__", GenericCmp(Lt)), ("__le__", GenericCmp(Le)), ("__eq__", GenericCmp(Eq)),
     ("__ne__", GenericCmp(Ne)), ("__ge__", GenericCmp(Ge)), ("__gt__", GenericCmp(Gt))]

  /** `m` after `setdefault` of each pair of `defaults`, in order. */
  function WithDefaults(m: map<string, Member>, defaults: seq<(string, Member)>): map<string, Member>
  {
    if defaults == [] then m
    else
      var rest := WithDefaults(m, defaults[..|defaults| - 1]);
      var (k, v) := defaults[|defaults| - 1];
      if k in rest then rest else rest[k := v]
  }

  lemma WithDefaultsAppend(m: map<string, Member>, d: seq<(string, Member)>, kv: (string, Member))
    ensures WithDefaults(m, d + [kv]) == var rest := WithDefaults(m, d);
                                         if kv.0 in rest then rest else rest[kv.0 := kv.1]
  {
    assert (d + [kv])[..|d|] == d;
  }

  function Key(kv: (string, Member)): string { kv.0 }

  ghost predicate DistinctKeys(d: seq<(string, Member)>)
  {
    forall i, j :: 0 <= i < j < |d| ==> Key(d[i]) != Key(d[j])
  }

  /** Injecting defaults never overrides: an entry present before keeps its
      value, an absent key among the defaults gets its default, no other key
      appears, and the keys afterwards are the old ones plus the defaults'. */
  lemma {:induction false} WithDefaultsEffect(m: map<string, Member>, d: seq<(string, Member)>)
    requires DistinctKeys(d)
    ensures forall k :: k in m ==> k in WithDefaults(m, d) && WithDefaults(m, d)[k] == m[k]
    ensures forall i :: 0 <= i < |d| && Key(d[i]) !in m ==>
              Key(d[i]) in WithDefaults(m, d) && WithDefaults(m, d)[Key(d[i])] == d[i].1
    ensures forall k :: k in WithDefaults(m, d) ==> k in m || exists i :: 0 <= i < |d| && Key(d[i]) == k
  {
    if d != [] {
      var init := d[..|d| - 1];
      assert DistinctKeys(init) by {
        forall i, j | 0 <= i < j < |init| ensures Key(init[i]) != Key(init[j]) {
          assert init[i] == d[i] && init[j] == d[j];
        }
      }
      WithDefaultsEffect(m, init);
      var last := d[|d| - 1];
      forall i | 0 <= i < |d| - 1 ensures Key(d[i]) != Key(last) && init[i] == d[i] {
      }
      forall k | k in WithDefaults(m, d) && k !in m
        ensures exists i :: 0 <= i < |d| && Key(d[i]) == k
      {
        if k != Key(last) {
          var i :| 0 <= i < |init| && Key(init[i]) == k;
          assert Key(d[i]) == k;
        } else {
          assert Key(d[|d| - 1]) == k;
        }
      }
    }
  }

  /** Injecting twice is the same as injecting once. */
  lemma {:induction false} WithDefaultsIdempotent(m: map<string, Member>, d: seq<(string, Member)>)
    requires DistinctKeys(d)
    ensures WithDefaults(WithDefaults(m, d), d) == WithDefaults(m, d)
  {
    WithDefaultsEffect(m, d);
    WithDefaultsKeep(WithDefaults(m, d), d);
  }

  lemma {:induction false} WithDefaultsKeep(m: map<string, Member>, d: seq<(string, Member)>)
    requires forall i :: 0 <= i < |d| ==> Key(d[i]) in m
    ensures WithDefaults(m, d) == m
  {
    if d != [] {
      WithDefaultsKeep(m, d[..|d| - 1]);
      assert Key(d[|d| - 1]) in m;
    }
  }

  lemma RichcmpKeysDistinct()
    ensures DistinctKeys(RichcmpDefaults)
  {
    var d := RichcmpDefaults;
    assert Key(d[0]) == "__lt__" && Key(d[1]) == "__le__" && Key(d[2]) == "__eq__";
    assert Key(d[3]) == "__ne__" && Key(d[4]) == "__ge__" && Key(d[5]) == "__gt__";
  }

  /** A class body that defined its own `__lt__` (to sort fast, say) keeps
      it, and gets the five other comparisons from `__cmp__`. */
  lemma RichcmpKeepsUserLt(code: nat)
    ensures WithDefaults(map["__lt__" := UserDefined(code)], RichcmpDefaults)
            == map["__lt__" := UserDefined(code), "__le__" := GenericCmp(Le), "__eq__" := GenericCmp(Eq),
                   "__ne__" := GenericCmp(Ne), "__ge__" := GenericCmp(Ge), "__gt__" := GenericCmp(Gt)]
  {
    var m := map["__lt__" := UserDefined(code)];
    var d := RichcmpDefaults;
    RichcmpKeysDistinct();
    WithDefaultsEffect(m, d);
    var r := WithDefaults(m, d);
    var e := map["__lt__" := UserDefined(code), "__le__" := GenericCmp(Le), "__eq__" := GenericCmp(Eq),
                 "__ne__" := GenericCmp(Ne), "__ge__" := GenericCmp(Ge), "__gt__" := GenericCmp(Gt)];
    forall i | 1 <= i < 6 ensures Key(d[i]) in r && r[Key(d[i])] == e[Key(d[i])] {
      assert Key(d[i]) !in m;
    }
    assert forall k :: k in r ==> k in e;
    assert Key(d[1]) == "__le__" && Key(d[2]) == "__eq__" && Key(d[3]) == "__ne__";
    assert Key(d[4]) == "__ge__" && Key(d[5]) == "__gt__";
    assert r.Keys == e.Keys;
  }

  /** `snakeoil.compatibility.cmp`: -1, 0 or 1. */
  function Cmp(a: int, b: int): (r: int)
    ensures r == 0 <==> a == b
    ensures r < 0 <==> a < b
    ensures r > 0 <==> a > b
  {
    if a < b then -1 else if a > b then 1 else 0
  }

  /** The `foo` of the documented example: two fields compared in order. */
  datatype Foo = Foo(a: int, b: int)

  function FooCmp(x: Foo, y: Foo): (r: int)
  {
    var c := Cmp(x.a, y.a);
    if c == 0 then Cmp(x.b, y.b) else c
  }

  /** The lexicographic `__cmp__` is a total order, so the derived
      comparisons are too: eq exactly on equal values, lt and gt swap with
      the operands, and le is transitive. */
  lemma FooOrder(x: Foo, y: Foo, z: Foo)
    ensures Generic(Eq, FooCmp(x, y)) <==> x == y
    ensures Generic(Lt, FooCmp(x, y)) <==> Generic(Gt, FooCmp(y, x))
    ensures Generic(Le, FooCmp(x, y)) && Generic(Le, FooCmp(y, z)) ==> Generic(Le, FooCmp(x, z))
  {
  }

  /** The documented example: `foo(1, 2) >= foo(1, 1)` and
      `foo(1, 1) == foo(1, 1)`, while `foo(1, 2) < foo(1, 1)` is false. */
  lemma FooExample()
    ensures Generic(Ge, FooCmp(Foo(1, 2), Foo(1, 1)))
    ensures Generic(Eq, FooCmp(Foo(1, 1), Foo(1, 1)))
    ensures !Generic(Lt, FooCmp(Foo(1, 2), Foo(1, 1)))
  {
  }

  /** An instance of a subclass of `ImmutableInstance`; `dict` is its
      `__dict__`. */
  class ImmutableObj {
    var dict: map<string, Value>

    constructor ()
      ensures dict == map[]
    {
      dict := map[];
    }

    /** `__setattr__` always raises. */
    method SetAttr(attr: string, v: Value) returns (r: Result<()>)
      ensures r == Err(AttributeError)
    {
      r := Err(AttributeError);
    }

    /** `__delattr__` always raises. */
    method DelAttr(attr: string) returns (r: Result<()>)
      ensures r == Err(AttributeError)
    {
      r := Err(AttributeError);
    }

    /** `__getstate__`: a copy of the attributes (a map is a value, so later
        changes to it cannot reach the instance). */
    method GetState() returns (state: map<string, Value>)
      ensures state == dict
    {
      state := dict;
    }

    /** `__setstate__`: writes each item with `object.__setattr__`, bypassing
        the refusing `__setattr__`. */
    method SetState(state: map<string, Value>)
      modifies this
      ensures dict == old(dict) + state
    {
      var todo := state.Keys;
      while todo != {}
        invariant todo <= state.Keys
        invariant forall k :: k in dict <==> k in old(dict) || (k in state && k !in todo)
        invariant forall k :: k in dict ==> dict[k] == if k in state && k !in todo then state[k] else old(dict)[k]
        decreases todo
      {
        var k :| k in todo;
        dict := dict[k := state[k]];
        todo := todo - {k};
      }
      assert dict == old(dict) + state;
    }
  }

  /** Pickling round trip: the state of one instance restores every
      attribute on a new one. The state is a map value, so the copy shares
      nothing with the original. */
  method StateRoundTrip(o: ImmutableObj) returns (copy: ImmutableObj)
    ensures copy.dict == o.dict
  {
    var state := o.GetState();
    copy := new ImmutableObj();
    copy.SetState(state);
  }

  /** A function as `steal_docs` sees it. */
  datatype Functor = Functor(name: string, doc: Option<string>)

  /** The target: a class, seen as its members' docstrings, or anything else,
      seen as its own docstring. */
  datatype Target = ClassTarget(members: map<string, Option<string>>) | OtherTarget(doc: Option<string>)

  /** `steal_docs(target, ignore_missing, name)(functor)`. */
  function StealDocs(target: Target, ignoreMissing: bool, name: Option<string>, functor: Functor): (r: Result<Functor>)
    ensures r.Ok? ==> r.value.name == functor.name
    ensures r.Err? <==> target.ClassTarget? && !ignoreMissing
                        && (if name.Some? then name.value else functor.name) !in target.members
    ensures r.Err? ==> r.error == AttributeError
    ensures target.OtherTarget? ==> r == Ok(functor.(doc := target.doc))
    ensures target.ClassTarget? ==>
              var tn := if name.Some? then name.value else functor.name;
              (tn in target.members ==> r == Ok(functor.(doc := target.members[tn])))
              && (tn !in target.members && ignoreMissing ==> r == Ok(functor))
  {
    match target
    case OtherTarget(doc) => Ok(functor.(doc := doc))
    case ClassTarget(members) =>
      var targetName := if name.Some? then name.value else functor.name;
      if targetName in members then Ok(functor.(doc := members[targetName]))
      else if ignoreMissing then Ok(functor)
      else Err(AttributeError)
  }

  /** Decorating again with the same `steal_docs` changes nothing more. */
  lemma StealDocsIdempotent(target: Target, ignoreMissing: bool, name: Option<string>, functor: Functor)
    requires StealDocs(target, ignoreMissing, name, functor).Ok?
    ensures var once := StealDocs(target, ignoreMissing, name, functor).value;
            StealDocs(target, ignoreMissing, name, once) == Ok(once)
  {
  }

  /** The documented example: `extend` of a `list` subclass, decorated with
      `steal_docs(list)`, carries `list.extend`'s docstring. */
  lemma StealDocsExample(listMembers: map<string, Option<string>>)
    requires "extend" in listMembers
    ensures StealDocs(ClassTarget(listMembers), false, None, Functor("extend", None))
            == Ok(Functor("extend", listMembers["extend"]))
  {
  }
}
