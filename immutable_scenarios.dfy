/** The scenarios of tests/klass/test_immutable.py, restated as verified
    methods over the model. */
module ImmutableScenarios {
  import opened Common
  import opened Immutable

  /** `test_injection`: a plain `__init__` is replaced by a wrapper; a
      subclass inherits that wrapper untouched while its own `__setstate__`
      is wrapped; a marked `__init__` is left exactly as written. */
  method Injection() returns (foo: PyClass, foo2: PyClass, foo3: PyClass)
    ensures "__init__" in foo.dict && "__setstate__" in foo2.dict && "__init__" in foo3.dict
    ensures foo.dict["__init__"] == MutationWrapper(Plain(1, false))
    ensures DisablesAutowrap(foo.dict["__init__"])
    ensures "__init__" !in foo2.dict && "__init__" in foo2.View() && foo2.View()["__init__"] == foo.dict["__init__"]
    ensures foo2.dict["__setstate__"] == MutationWrapper(Plain(2, false))
    ensures foo3.dict["__init__"] == Plain(3, true)
  {
    foo := DefineSubclass(null, map["__init__" := Plain(1, false)]);
    AutowrapNamesUnrolled(map["__init__" := Plain(1, false)], foo.inherited);
    foo2 := DefineSubclass(foo, map["__setstate__" := Plain(2, false)]);
    AutowrapNamesUnrolled(map["__setstate__" := Plain(2, false)], foo2.inherited);
    foo3 := DefineSubclass(foo2, map["__init__" := Plain(3, true)]);
    AutowrapNamesUnrolled(map["__init__" := Plain(3, true)], foo3.inherited);
  }

  /** `test_disallowed_mutation`: a subclass with an empty body still gets
      `object.__init__` wrapped, and outside any mutation block its
      instances refuse both set and delete. */
  method DisallowedMutation() returns (kls: PyClass, setRefused: bool, delRefused: bool)
    ensures kls.dict == map["__init__" := MutationWrapper(ObjectInit)]
    ensures setRefused && delRefused
  {
    kls := DefineSubclass(null, map[]);
    AutowrapNamesUnrolled(map[], kls.inherited);
    var gate := new MutationGate();
    var obj := new SimpleObject();
    var s := obj.SetAttr(gate, "x", IntValue(1));
    var d := obj.DelAttr(gate, "y");
    setRefused, delRefused := s.Err?, d.Err?;
  }

  /** `_immutable_test_kls.__init__` as its installed wrapper runs it: inside
      a mutation block for `self`, set `dar` to 1 and, when recursing, build a
      child (whose own init opens and closes a block for the child), check the
      child is locked again, and set `dar` to 3. */
  method TestKlsInit(gate: MutationGate, self: SimpleObject, recurse: bool) returns (childLocked: bool)
    modifies gate, self
    ensures gate.allowed == old(gate.allowed)
    ensures self.attrs == old(self.attrs)["dar" := IntValue(if recurse then 3 else 1)]
    ensures recurse ==> childLocked
    decreases recurse
  {
    var last := gate.Enter(self);
    var _ := self.SetAttr(gate, "dar", IntValue(1));
    childLocked := false;
    if recurse {
      var child := new SimpleObject();
      var _ := TestKlsInit(gate, child, false);
      var r := child.SetAttr(gate, "dar", IntValue(4));
      childLocked := r.Err?;
      var _ := self.SetAttr(gate, "dar", IntValue(3));
    }
    gate.Exit(last);
  }

  /** `test_mutation_init` and `test_mutation_recursion`: the parent ends
      with `dar` 3, and once its init is over it is locked again. */
  method MutationRecursion() returns (dar: Value, lockedAfter: bool)
    ensures dar == IntValue(3) && lockedAfter
  {
    var gate := new MutationGate();
    var o := new SimpleObject();
    var childLocked := TestKlsInit(gate, o, true);
    dar := o.attrs["dar"];
    var r := o.SetAttr(gate, "x", IntValue(1));
    lockedAfter := r.Err?;
  }

  /** `test_mutation_utilities`: a method made with
      `__allow_mutation_wrapper__` may mutate, as may code inside
      `with o.__allow_mutation__()`. */
  method MutationUtilities() returns (afterSetDar: Value, afterBlock: Value)
    ensures afterSetDar == IntValue(5) && afterBlock == IntValue(6)
  {
    var gate := new MutationGate();
    var o := new SimpleObject();
    var _ := TestKlsInit(gate, o, false);
    // `o.set_dar(5)`: the wrapper opens a block around the body.
    var last := gate.Enter(o);
    var _ := o.SetAttr(gate, "dar", IntValue(5));
    gate.Exit(last);
    afterSetDar := o.attrs["dar"];
    last := gate.Enter(o);
    var _ := o.SetAttr(gate, "dar", IntValue(6));
    gate.Exit(last);
    afterBlock := o.attrs["dar"];
  }
}
