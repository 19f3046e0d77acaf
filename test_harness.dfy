/** snakeoil/test/__init__.py: the `Todo` marker and the outcome rules of
    `TestCase.run`. The result object is a `TestResult` that records, in
    order, every callback made on it. A test case is modelled by what `run`
    finds on it: its resolved `skip` and `todo` attributes and how each of
    `setUp`, the test method and `tearDown` ends when called. */
module TestHarness {
  import opened Common

  /** An exception class; `is` on classes is reference identity. */
  class ExcClass {
    constructor ()
    {
    }
  }

  /** The `errors` half of a `(errors, reason)` todo: something `list()`
      accepts, or a single exception class, which it refuses. */
  datatype ErrorsSpec = Iterable(items: seq<ExcClass>) | Single(error: ExcClass)

  /** A `todo` attribute: a string, a pair, a sequence of any other length,
      or a value that cannot be unpacked at all. */
  datatype TodoSpec =
    | ReasonOnly(reason: string)
    | Pair(errors: ErrorsSpec, reason: string)
    | BadArity
    | NotIterable

  datatype Todo = Todo(reason: string, errors: Option<seq<ExcClass>>)

  /** `Todo.parse`. Unpacking something that is not a pair raises ValueError
      (wrong length) or TypeError (not iterable). */
  function Parse(todo: TodoSpec): (r: Result<Todo>)
    ensures todo.ReasonOnly? ==> r == Ok(Todo(todo.reason, None))
    ensures todo.Pair? && todo.errors.Iterable? ==> r == Ok(Todo(todo.reason, Some(todo.errors.items)))
    ensures todo.Pair? && todo.errors.Single? ==> r == Ok(Todo(todo.reason, Some([todo.errors.error])))
    ensures r.Err? <==> todo.BadArity? || todo.NotIterable?
    ensures todo.BadArity? ==> r == Err(ValueError)
    ensures todo.NotIterable? ==> r == Err(TypeError)
  {
    match todo
    case ReasonOnly(reason) => Ok(Todo(reason, None))
    case Pair(errors, reason) =>
      var listed := match errors
        case Iterable(items) => items
        case Single(e) => [e];
      Ok(Todo(reason, Some(listed)))
    case BadArity => Err(ValueError)
    case NotIterable => Err(TypeError)
  }

  /** What `Todo.expected` answers: every exception without a list,
      otherwise exactly the listed classes, by identity. */
  predicate Matches(todo: Todo, exc: ExcClass)
  {
    todo.errors.None? || exc in todo.errors.value
  }

  /** `Todo.expected`: an early-return identity search over the list. */
  method Expected(todo: Todo, exc: ExcClass) returns (r: bool)
    ensures r <==> Matches(todo, exc)
  {
    if todo.errors.None? {
      return true;
    }
    var errors := todo.errors.value;
    for i := 0 to |errors|
      invariant exc !in errors[..i]
    {
      if exc == errors[i] {
        return true;
      }
    }
    assert errors[..|errors|] == errors;
    return false;
  }

  /** A parsed todo expects exactly what its source listed: everything for a
      bare reason, and only the given class for a single one. */
  lemma ParseThenMatch(todo: TodoSpec, exc: ExcClass)
    requires Parse(todo).Ok?
    ensures todo.ReasonOnly? ==> Matches(Parse(todo).value, exc)
    ensures todo.Pair? && todo.errors.Single? ==> (Matches(Parse(todo).value, exc) <==> exc == todo.errors.error)
    ensures todo.Pair? && todo.errors.Iterable? ==> (Matches(Parse(todo).value, exc) <==> exc in todo.errors.items)
  {
  }

  datatype Phase = SetUpPhase | TestPhase | TearDownPhase

  /** The callbacks `run` makes on its result. */
  datatype Event =
    | StartTest
    | StopTest
    | AddSuccess
    | AddSkip(reason: string)
    | AddError(phase: Phase)
    | AddFailure(exc: ExcClass)
    | AddExpectedFailure(exc: ExcClass, reason: string)
    | AddUnexpectedSuccess(reason: string)

  /** How a call of setUp, the test method or tearDown ends: normally, with
      `failureException` (of class `exc`), with SkipTest, with
      KeyboardInterrupt, or with any other exception (of class `exc`). */
  datatype Outcome = Pass | Failed(exc: ExcClass) | SkipRaised(msg: string) | Interrupted | Raised(exc: ExcClass)

  datatype Case = Case(skip: Option<string>, todo: Option<TodoSpec>, setUp: Outcome, test: Outcome, tearDown: Outcome)

  /** What escapes `run`: KeyboardInterrupt, or the error of a malformed todo. */
  datatype Escape = KeyboardInterrupt | TodoError(error: PyError)

  /** A test result: the optional callbacks it has (by name) and the
      callbacks recorded so far. `startTest`, `stopTest`, `addSuccess`,
      `addError` and `addFailure` are always there. */
  class TestResult {
    const methods: set<string>
    var events: seq<Event>

    constructor (methods: set<string>)
      ensures this.methods == methods && events == []
    {
      this.methods, events := methods, [];
    }

    method Record(e: Event)
      modifies this
      ensures events == old(events) + [e]
    {
      events := events + [e];
    }
  }

  /** The event an optional callback records: one event when the result has
      the method, none otherwise. */
  function Optional(methods: set<string>, name: string, e: Event): (r: seq<Event>)
    ensures r == [] || r == [e]
    ensures r == [e] <==> name in methods
  {
    if name in methods then [e] else []
  }

  /** `_tryResultCall`: calls the method when the result has it and returns
      True (`Some(true)`), and returns None otherwise. */
  method TryResultCall(result: TestResult, name: string, e: Event) returns (r: Option<bool>)
    modifies result
    ensures r == if name in result.methods then Some(true) else None
    ensures result.events == old(result.events) + Optional(result.methods, name, e)
  {
    if name in result.methods {
      result.Record(e);
      return Some(true);
    }
    return None;
  }

  /** How `run` ends, as a whole: the callbacks made, the phases called, and
      what escaped. */
  datatype Run = Run(events: seq<Event>, ran: seq<Phase>, escaped: Option<Escape>)

  /** The callbacks the test method's outcome leads to (before tearDown). */
  function TestCallbacks(methods: set<string>, todo: Option<Todo>, test: Outcome): seq<Event>
  {
    match test
    case Pass => []
    case Failed(e) =>
      if todo.Some? && Matches(todo.value, e) then
        Optional(methods, "addExpectedFailure", AddExpectedFailure(e, todo.value.reason))
      else [AddFailure(e)]
    case SkipRaised(m) => Optional(methods, "addSkip", AddSkip(m))
    case Interrupted => []
    case Raised(e) =>
      if todo.Some? && Matches(todo.value, e) then
        Optional(methods, "addExpectedFailure", AddExpectedFailure(e, todo.value.reason))
      else [AddError(TestPhase)]
  }

  /** The final verdict after a passing test and tearDown. */
  function SuccessCallback(methods: set<string>, todo: Option<Todo>): seq<Event>
  {
    if todo.Some? then Optional(methods, "addUnexpectedSuccess", AddUnexpectedSuccess(todo.value.reason))
    else [AddSuccess]
  }

  /** The classification `run` performs, between `startTest` and `stopTest`. */
  function Body(methods: set<string>, c: Case): Run
  {
    var parsed := if c.todo.Some? then Some(Parse(c.todo.value)) else None;
    if parsed.Some? && parsed.value.Err? then Run([], [], Some(TodoError(parsed.value.error)))
    else
      var todo := if parsed.Some? then Some(parsed.value.value) else None;
      if c.skip.Some? then
        Run(if "addSkip" in methods then [AddSkip(c.skip.value)] else [AddSuccess], [], None)
      else if c.setUp.Interrupted? then Run([], [SetUpPhase], Some(KeyboardInterrupt))
      else if !c.setUp.Pass? then Run([AddError(SetUpPhase)], [SetUpPhase], None)
      else if c.test.Interrupted? then Run([], [SetUpPhase, TestPhase], Some(KeyboardInterrupt))
      else
        var testEvents := TestCallbacks(methods, todo, c.test);
        var all := [SetUpPhase, TestPhase, TearDownPhase];
        if c.tearDown.Interrupted? then Run(testEvents, all, Some(KeyboardInterrupt))
        else if !c.tearDown.Pass? then Run(testEvents + [AddError(TearDownPhase)], all, None)
        else if c.test.Pass? then Run(SuccessCallback(methods, todo), all, None)
        else Run(testEvents, all, None)
  }

  /** The whole of `run`: `startTest`, the classification, and `stopTest`
      from the `finally`, whatever escaped. */
  function Verdict(methods: set<string>, c: Case): Run
  {
    var b := Body(methods, c);
    Run([StartTest] + b.events + [StopTest], b.ran, b.escaped)
  }

  /** `TestCase.run` up to its outer `finally`, step by step as written:
      parse the todo, handle skip, run setUp, run the test under the `ok`
      flag, run tearDown, and report success last. */
  method RunBody(result: TestResult, c: Case) returns (ran: seq<Phase>, escaped: Option<Escape>)
    modifies result
    ensures result.events == old(result.events) + Body(result.methods, c).events
    ensures ran == Body(result.methods, c).ran && escaped == Body(result.methods, c).escaped
  {
    ran := [];
    var todo: Option<Todo> := None;
    if c.todo.Some? {
      var p := Parse(c.todo.value);
      if p.Err? {
        return ran, Some(TodoError(p.error));
      }
      todo := Some(p.value);
    }
    if c.skip.Some? {
      var called := TryResultCall(result, "addSkip", AddSkip(c.skip.value));
      if called.None? {
        result.Record(AddSuccess);
      }
      return ran, None;
    }

    ran := ran + [SetUpPhase];
    if c.setUp.Interrupted? {
      return ran, Some(KeyboardInterrupt);
    }
    if !c.setUp.Pass? {
      result.Record(AddError(SetUpPhase));
      return ran, None;
    }

    ran := ran + [TestPhase];
    var ok := false;
    match c.test {
      case Pass =>
        ok := true;
      case Failed(e) =>
        var expected := false;
        if todo.Some? {
          expected := Expected(todo.value, e);
        }
        if expected {
          var _ := TryResultCall(result, "addExpectedFailure", AddExpectedFailure(e, todo.value.reason));
        } else {
          result.Record(AddFailure(e));
        }
      case SkipRaised(m) =>
        var _ := TryResultCall(result, "addSkip", AddSkip(m));
      case Interrupted =>
        return ran, Some(KeyboardInterrupt);
      case Raised(e) =>
        var expected := false;
        if todo.Some? {
          expected := Expected(todo.value, e);
        }
        if expected {
          var _ := TryResultCall(result, "addExpectedFailure", AddExpectedFailure(e, todo.value.reason));
        } else {
          result.Record(AddError(TestPhase));
        }
    }

    ran := ran + [TearDownPhase];
    if c.tearDown.Interrupted? {
      return ran, Some(KeyboardInterrupt);
    }
    if !c.tearDown.Pass? {
      result.Record(AddError(TearDownPhase));
      ok := false;
    }
    if ok {
      if todo.Some? {
        var _ := TryResultCall(result, "addUnexpectedSuccess", AddUnexpectedSuccess(todo.value.reason));
      } else {
        result.Record(AddSuccess);
      }
    }
    return ran, None;
  }

  /** `TestCase.run(result)`. */
  method RunTest(result: TestResult, c: Case) returns (ran: seq<Phase>, escaped: Option<Escape>)
    modifies result
    ensures result.events == old(result.events) + Verdict(result.methods, c).events
    ensures ran == Verdict(result.methods, c).ran && escaped == Verdict(result.methods, c).escaped
  {
    result.Record(StartTest);
    ran, escaped := RunBody(result, c);
    result.Record(StopTest);
  }

  /** No classification callback is `startTest` or `stopTest`. */
  lemma BodyHasNoBrackets(methods: set<string>, c: Case)
    ensures StartTest !in Body(methods, c).events && StopTest !in Body(methods, c).events
  {
  }

  /** `startTest` comes first and `stopTest` last, each exactly once, on
      every path, including a KeyboardInterrupt or a malformed todo. */
  lemma {:induction false} BracketedOnce(methods: set<string>, c: Case)
    ensures var ev := Verdict(methods, c).events;
      |ev| >= 2 && ev[0] == StartTest && ev[|ev| - 1] == StopTest
      && (forall i :: 0 < i < |ev| ==> ev[i] != StartTest)
      && (forall i :: 0 <= i < |ev| - 1 ==> ev[i] != StopTest)
  {
    var b := Body(methods, c).events;
    var ev := Verdict(methods, c).events;
    BodyHasNoBrackets(methods, c);
    assert ev == [StartTest] + b + [StopTest];
    forall i | 0 < i < |ev| - 1 ensures ev[i] == b[i - 1] {
    }
    forall i | 0 < i < |ev| - 1 ensures ev[i] != StartTest && ev[i] != StopTest {
      assert b[i - 1] in b;
    }
  }

  /** With `skip` set (and a well-formed todo) nothing else runs: the only
      callback is addSkip, or addSuccess when the result has no addSkip. */
  lemma SkipRunsNothing(methods: set<string>, c: Case)
    requires c.skip.Some? && (c.todo.Some? ==> Parse(c.todo.value).Ok?)
    ensures Verdict(methods, c).ran == [] && Verdict(methods, c).escaped == None
    ensures Verdict(methods, c).events
            == [StartTest, if "addSkip" in methods then AddSkip(c.skip.value) else AddSuccess, StopTest]
  {
  }

  /** A failing setUp records addError and neither the test nor tearDown runs. */
  lemma SetUpErrorStops(methods: set<string>, c: Case)
    requires c.skip.None? && (c.todo.Some? ==> Parse(c.todo.value).Ok?)
    requires !c.setUp.Pass? && !c.setUp.Interrupted?
    ensures Verdict(methods, c) == Run([StartTest, AddError(SetUpPhase), StopTest], [SetUpPhase], None)
  {
  }

  /** A failure or error of the test that the todo expects becomes an
      expected failure (when the result can record one); one it does not
      expect is an ordinary failure or error. */
  lemma TodoClassifiesFailure(methods: set<string>, todo: Option<Todo>, test: Outcome)
    requires test.Failed? || test.Raised?
    ensures todo.Some? && Matches(todo.value, test.exc) ==>
              TestCallbacks(methods, todo, test)
              == Optional(methods, "addExpectedFailure", AddExpectedFailure(test.exc, todo.value.reason))
    ensures !(todo.Some? && Matches(todo.value, test.exc)) ==>
              TestCallbacks(methods, todo, test) == [if test.Failed? then AddFailure(test.exc) else AddError(TestPhase)]
  {
  }

  /** addSuccess is recorded exactly when the run was skipped on a result
      without addSkip, or when there is no todo and setUp, the test and
      tearDown all passed. */
  lemma {:induction false} SuccessExactly(methods: set<string>, c: Case)
    ensures AddSuccess in Verdict(methods, c).events <==>
      (c.todo.Some? ==> Parse(c.todo.value).Ok?) &&
      ((c.skip.Some? && "addSkip" !in methods)
       || (c.skip.None? && c.todo.None? && c.setUp.Pass? && c.test.Pass? && c.tearDown.Pass?))
  {
    var b := Body(methods, c).events;
    assert Verdict(methods, c).events == [StartTest] + b + [StopTest];
    assert AddSuccess in Verdict(methods, c).events <==> AddSuccess in b;
    var parsed := if c.todo.Some? then Some(Parse(c.todo.value)) else None;
    var todo := if parsed.Some? && parsed.value.Ok? then Some(parsed.value.value) else None;
    assert AddSuccess !in TestCallbacks(methods, todo, c.test);
  }

  /** An error in tearDown is recorded and suppresses every kind of success. */
  lemma TearDownErrorSuppressesSuccess(methods: set<string>, c: Case)
    requires c.skip.None? && c.setUp.Pass? && !c.test.Interrupted?
    requires !c.tearDown.Pass? && !c.tearDown.Interrupted?
    requires c.todo.Some? ==> Parse(c.todo.value).Ok?
    ensures Verdict(methods, c).ran == [SetUpPhase, TestPhase, TearDownPhase]
    ensures AddError(TearDownPhase) in Verdict(methods, c).events
    ensures AddSuccess !in Verdict(methods, c).events
    ensures forall r :: AddUnexpectedSuccess(r) !in Verdict(methods, c).events
  {
    SuccessExactly(methods, c);
    var parsed := if c.todo.Some? then Some(Parse(c.todo.value)) else None;
    var todo := if parsed.Some? then Some(parsed.value.value) else None;
    var t := TestCallbacks(methods, todo, c.test);
    assert Verdict(methods, c).events == [StartTest] + t + [AddError(TearDownPhase)] + [StopTest];
    assert forall r :: AddUnexpectedSuccess(r) !in t;
  }

  /** A passing test with a todo is an unexpected success, never a success. */
  lemma PassWithTodoIsUnexpected(methods: set<string>, c: Case)
    requires c.skip.None? && c.setUp.Pass? && c.test.Pass? && c.tearDown.Pass?
    requires c.todo.Some? && Parse(c.todo.value).Ok?
    ensures Verdict(methods, c).events
            == [StartTest] + Optional(methods, "addUnexpectedSuccess", AddUnexpectedSuccess(Parse(c.todo.value).value.reason))
               + [StopTest]
    ensures AddSuccess !in Verdict(methods, c).events
  {
  }

  /** KeyboardInterrupt escapes `run` exactly when a phase that was called
      raised it; `stopTest` is still recorded (see BracketedOnce). */
  lemma InterruptEscapes(methods: set<string>, c: Case)
    requires c.todo.Some? ==> Parse(c.todo.value).Ok?
    ensures Verdict(methods, c).escaped == Some(KeyboardInterrupt) <==>
      c.skip.None? &&
      (c.setUp.Interrupted?
       || (c.setUp.Pass? && (c.test.Interrupted? || c.tearDown.Interrupted?)))
  {
  }
}
