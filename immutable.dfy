/** src/snakeoil/klass/immutable.py: instances that refuse attribute
    mutation except inside a mutation block for that very instance.
    The context variable `_immutable_allow_mutations` is a `MutationGate`
    holding the object currently allowed to mutate; its default, the id 0
    that no object has, is `null`. Object identity (`id(self)`) is Dafny's
    reference identity. */
module Immutable {
  import opened Common

  /** What `ContextVar.set` hands back: the value to restore on `reset`. */
  datatype Token = Token(previous: object?)

  class MutationGate {
    var allowed: object?

    /** The context variable at its default. */
    constructor ()
      ensures allowed == null
    {
      allowed := null;
    }

    /** Entering `with o.__allow_mutation__()`. */
    method Enter(o: object) returns (last: Token)
      modifies this
      ensures allowed == o && last == Token(old(allowed))
    {
      last := Token(allowed);
      allowed := o;
    }

    /** Leaving the block, normally or by an exception (the `finally`). */
    method Exit(last: Token)
      modifies this
      ensures allowed == last.previous
    {
      allowed := last.previous;
    }
  }

  /** The outcome of `__setattr__` on a Simple instance with attributes
      `attrs`, when `allowed` is the current token. */
  function SimpleSetAttr(allowed: object?, self: object, attrs: map<string, Value>, name: string, v: Value)
    : (r: Result<map<string, Value>>)
    ensures r.Ok? <==> allowed == self
    ensures r.Ok? ==> name in r.value && r.value[name] == v
    ensures r.Ok? ==> forall k :: k in attrs && k != name ==> k in r.value && r.value[k] == attrs[k]
    ensures r.Ok? ==> r.value.Keys == attrs.Keys + {name}
    ensures r.Err? ==> r.error == AttributeError
  {
    if allowed != self then Err(AttributeError) else Ok(attrs[name := v])
  }

  /** The outcome of `__delattr__`: the gate first, then `object.__delattr__`,
      which itself raises AttributeError for a missing attribute. */
  function SimpleDelAttr(allowed: object?, self: object, attrs: map<string, Value>, name: string)
    : (r: Result<map<string, Value>>)
    ensures r.Ok? <==> allowed == self && name in attrs
    ensures r.Ok? ==> r.value.Keys == attrs.Keys - {name}
    ensures r.Ok? ==> forall k :: k in r.value ==> r.value[k] == attrs[k]
    ensures r.Err? ==> r.error == AttributeError
  {
    if allowed != self || name !in attrs then Err(AttributeError) else Ok(attrs - {name})
  }

  /** Outside every mutation block the token matches no object, so every set
      and every delete is refused. */
  lemma DefaultTokenRefusesAll(self: object, attrs: map<string, Value>, name: string, v: Value)
    ensures SimpleSetAttr(null, self, attrs, name, v) == Err(AttributeError)
    ensures SimpleDelAttr(null, self, attrs, name) == Err(AttributeError)
  {
  }

  /** An instance of a subclass of Simple. */
  class SimpleObject {
    var attrs: map<string, Value>

    constructor ()
      ensures attrs == map[]
    {
      attrs := map[];
    }

    /** `__setattr__`. */
    method SetAttr(gate: MutationGate, name: string, v: Value) returns (r: Result<()>)
      modifies this
      ensures r.Ok? <==> gate.allowed == this
      ensures r.Err? ==> r.error == AttributeError
      ensures SimpleSetAttr(gate.allowed, this, old(attrs), name, v) == if r.Ok? then Ok(attrs) else Err(AttributeError)
      ensures r.Err? ==> attrs == old(attrs)
    {
      if gate.allowed != this {
        return Err(AttributeError);
      }
      attrs := attrs[name := v];
      return Ok(());
    }

    /** `__delattr__`. */
    method DelAttr(gate: MutationGate, name: string) returns (r: Result<()>)
      modifies this
      ensures r.Ok? <==> gate.allowed == this && name in old(attrs)
      ensures r.Err? ==> r.error == AttributeError
      ensures SimpleDelAttr(gate.allowed, this, old(attrs), name) == if r.Ok? then Ok(attrs) else Err(AttributeError)
      ensures r.Err? ==> attrs == old(attrs)
    {
      if gate.allowed != this || name !in attrs {
        return Err(AttributeError);
      }
      attrs := attrs - {name};
      return Ok(());
    }
  }

  /** An instance of a subclass of Strict: `__setattr__` and `__delattr__`
      always raise, whatever the mutation gate says. */
  class StrictObject {
    var attrs: map<string, Value>

    constructor ()
      ensures attrs == map[]
    {
      attrs := map[];
    }

    method SetAttr(name: string, v: Value) returns (r: Result<()>)
      ensures r == Err(AttributeError)
    {
      r := Err(AttributeError);
    }

    method DelAttr(name: string) returns (r: Result<()>)
      ensures r == Err(AttributeError)
    {
      r := Err(AttributeError);
    }
  }

  /** Functions stored on classes, as far as autowrapping can tell them apart:
      user code (with or without `__disable_mutation_autowrapping__` set) and
      the wrappers `__allow_mutation_wrapper__` makes. */
  datatype Fn = Plain(code: nat, noAutowrap: bool) | MutationWrapper(inner: Fn)

  /** `getattr(method, "__disable_mutation_autowrapping__", False)`. */
  predicate DisablesAutowrap(f: Fn)
  {
    f.MutationWrapper? || f.noAutowrap
  }

  /** `__allow_mutation_wrapper__(functor)`: a wrapper that runs the functor
      inside a mutation block for its instance, marked so that it is never
      wrapped again. */
  function AllowMutationWrapper(f: Fn): (r: Fn)
    ensures DisablesAutowrap(r)
  {
    MutationWrapper(f)
  }

  /** `object.__init__`, which every class inherits unless it defines its own. */
  const ObjectInit: Fn := Plain(0, false)

  /** `__immutable_methods_to_autowrap__`. */
  const AutowrapNames: seq<string> := ["__init__", "__setstate__", "__del__"]

  /** `getattr(cls, name, None)`: the class's own namespace first, then what it
      inherits from its bases. */
  function Resolve(dict: map<string, Fn>, inherited: map<string, Fn>, name: string): (r: Option<Fn>)
    ensures r.Some? <==> name in dict || name in inherited
    ensures name in dict ==> r == Some(dict[name])
  {
    if name in dict then Some(dict[name])
    else if name in inherited then Some(inherited[name])
    else None
  }

  /** One pass of the loop in `__init_subclass__`. */
  function AutowrapOne(dict: map<string, Fn>, inherited: map<string, Fn>, name: string): map<string, Fn>
  {
    match Resolve(dict, inherited, name)
    case None => dict
    case Some(m) => if DisablesAutowrap(m) then dict else dict[name := AllowMutationWrapper(m)]
  }

  /** The namespace after the loop has handled `names`, in order. */
  function Autowrap(dict: map<string, Fn>, inherited: map<string, Fn>, names: seq<string>): map<string, Fn>
  {
    if names == [] then dict
    else AutowrapOne(Autowrap(dict, inherited, names[..|names| - 1]), inherited, names[|names| - 1])
  }

  /** The loop over `__immutable_methods_to_autowrap__`, unrolled. */
  lemma AutowrapNamesUnrolled(dict: map<string, Fn>, inherited: map<string, Fn>)
    ensures Autowrap(dict, inherited, AutowrapNames)
            == AutowrapOne(AutowrapOne(AutowrapOne(dict, inherited, "__init__"), inherited, "__setstate__"), inherited, "__del__")
  {
    var n := AutowrapNames;
    var two: seq<string> := ["__init__", "__setstate__"];
    var one: seq<string> := ["__init__"];
    assert n[..|n| - 1] == two && two[..|two| - 1] == one && one[..|one| - 1] == [];
    assert Autowrap(dict, inherited, one) == AutowrapOne(dict, inherited, "__init__");
    assert Autowrap(dict, inherited, two) == AutowrapOne(Autowrap(dict, inherited, one), inherited, "__setstate__");
  }

  /** What a name resolves to after autowrapping: absent if it was absent, the
      very same function if that one was marked, and otherwise a wrapper of
      what it resolved to before. */
  ghost predicate WrappedAsPromised(before: map<string, Fn>, after: map<string, Fn>,
                                    inherited: map<string, Fn>, name: string)
  {
    match Resolve(before, inherited, name)
    case None => Resolve(after, inherited, name).None?
    case Some(m) =>
      Resolve(after, inherited, name) == Some(if DisablesAutowrap(m) then m else AllowMutationWrapper(m))
  }

  /** For distinct names, `__init_subclass__` wraps each name as promised and
      leaves every other entry of the namespace alone. */
  lemma {:induction false} AutowrapEffect(dict: map<string, Fn>, inherited: map<string, Fn>, names: seq<string>)
    requires forall i, j :: 0 <= i < j < |names| ==> names[i] != names[j]
    ensures forall n :: n in names ==> WrappedAsPromised(dict, Autowrap(dict, inherited, names), inherited, n)
    ensures forall k :: k !in names ==> (k in Autowrap(dict, inherited, names) <==> k in dict)
    ensures forall k :: k !in names && k in dict ==> Autowrap(dict, inherited, names)[k] == dict[k]
  {
    if names != [] {
      var init := names[..|names| - 1];
      var last := names[|names| - 1];
      AutowrapEffect(dict, inherited, init);
      assert forall n :: n in names ==> n in init || n == last;
      assert last !in init;
    }
  }

  /** Running the loop again after it changes nothing: every wrapper it
      installed is marked, so no method is ever wrapped twice. */
  lemma {:induction false} AutowrapIdempotent(dict: map<string, Fn>, inherited: map<string, Fn>, names: seq<string>)
    requires forall i, j :: 0 <= i < j < |names| ==> names[i] != names[j]
    ensures Autowrap(Autowrap(dict, inherited, names), inherited, names) == Autowrap(dict, inherited, names)
  {
    var once := Autowrap(dict, inherited, names);
    AutowrapEffect(dict, inherited, names);
    AutowrapFixes(once, inherited, names);
  }

  lemma {:induction false} AutowrapFixes(dict: map<string, Fn>, inherited: map<string, Fn>, names: seq<string>)
    requires forall n :: n in names ==> match Resolve(dict, inherited, n)
                                        case None => true
                                        case Some(m) => DisablesAutowrap(m)
    ensures Autowrap(dict, inherited, names) == dict
  {
    if names != [] {
      AutowrapFixes(dict, inherited, names[..|names| - 1]);
      assert names[|names| - 1] in names;
    }
  }

  /** A class object: its own namespace and what it inherits. */
  class PyClass {
    var dict: map<string, Fn>
    const inherited: map<string, Fn>

    constructor (inherited: map<string, Fn>, body: map<string, Fn>)
      ensures this.inherited == inherited && dict == body
    {
      this.inherited, dict := inherited, body;
    }

    /** Everything `getattr` finds on the class. */
    function View(): map<string, Fn>
      reads this
    {
      inherited + dict
    }

    /** `Simple.__init_subclass__`: a loop over the autowrap names that
        installs a wrapper for each method present and not yet marked. */
    method InitSubclass()
      modifies this
      ensures dict == Autowrap(old(dict), inherited, AutowrapNames)
    {
      for i := 0 to |AutowrapNames|
        invariant dict == Autowrap(old(dict), inherited, AutowrapNames[..i])
      {
        assert AutowrapNames[..i + 1][..i] == AutowrapNames[..i];
        var name := AutowrapNames[i];
        var m := Resolve(dict, inherited, name);
        if m.Some? && !DisablesAutowrap(m.value) {
          dict := dict[name := AllowMutationWrapper(m.value)];
        }
      }
      assert AutowrapNames[..|AutowrapNames|] == AutowrapNames;
    }
  }

  /** `class C(parent): body`, with `__init_subclass__` run by class creation.
      A direct subclass of Simple inherits only `object.__init__`. */
  method DefineSubclass(parent: PyClass?, body: map<string, Fn>) returns (c: PyClass)
    ensures fresh(c)
    ensures c.inherited == if parent == null then map["__init__" := ObjectInit] else parent.View()
    ensures c.dict == Autowrap(body, c.inherited, AutowrapNames)
  {
    var inh := if parent == null then map["__init__" := ObjectInit] else parent.View();
    c := new PyClass(inh, body);
    c.InitSubclass();
  }
}
