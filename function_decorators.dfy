/** The function decorators: higher-order wrappers that log a call's arguments
    or its execution time and hand back the wrapped function's result unchanged,
    and the functions decorated with them. */
module FunctionDecorators {

  /** The values the decorated functions take and return: only Python's `int` and `str`. */
  datatype Value = Int(i: int) | Str(s: string)

  /** The arguments of one call: `*args` in order and `**kwargs` in order. */
  datatype Args = Args(positional: seq<Value>, keyword: seq<(string, Value)>)

  /** A warning-level log record; the text it is formatted into is not modelled. */
  datatype LogRecord =
    | PositionalArguments(funcName: string, positional: seq<Value>)
    | KeywordArguments(funcName: string, keyword: seq<(string, Value)>)
    | ExecutionTime(funcName: string)

  /** How a call ends: with a return value, or with an exception that propagates. */
  datatype Outcome = Returned(value: Value) | Raised

  /** One call: how it ended and the records it logged, oldest first. */
  datatype Call = Call(outcome: Outcome, log: seq<LogRecord>)

  /** A Python function: its `__name__` and what calling it does. */
  datatype Callable = Callable(name: string, body: Args -> Call)

  /** Calls `f` with `args`. */
  function Invoke(f: Callable, args: Args): Call
  {
    f.body(args)
  }

  /** `log_arguments_and_return_value`: logs the positional and then the keyword
      arguments under the wrapped function's name, then calls it and returns
      what it returns (an exception propagates after both records are logged). */
  function LogArgumentsAndReturnValue(f: Callable): (g: Callable)
    ensures g.name == f.name
    ensures forall args :: Invoke(g, args).outcome == Invoke(f, args).outcome
    ensures forall args :: Invoke(g, args).log ==
              [PositionalArguments(f.name, args.positional), KeywordArguments(f.name, args.keyword)]
              + Invoke(f, args).log
  {
    Callable(f.name, (args: Args) =>
      var c := f.body(args);
      Call(c.outcome,
           [PositionalArguments(f.name, args.positional), KeywordArguments(f.name, args.keyword)] + c.log))
  }

  /** `measure_execution_time`: calls the wrapped function, then logs one timing
      record under its name and returns its result; when the call raises, the
      timing record is never written. */
  function MeasureExecutionTime(f: Callable): (g: Callable)
    ensures g.name == f.name
    ensures forall args :: Invoke(g, args).outcome == Invoke(f, args).outcome
    ensures forall args :: Invoke(g, args).log ==
              Invoke(f, args).log + (if Invoke(f, args).outcome.Raised? then [] else [ExecutionTime(f.name)])
  {
    Callable(f.name, (args: Args) =>
      var c := f.body(args);
      if c.outcome.Raised? then c else Call(c.outcome, c.log + [ExecutionTime(f.name)]))
  }

  /** The two decorators, as they can be stacked on a function definition. */
  datatype Decorator = LogArguments | MeasureTime

  function Apply(d: Decorator, f: Callable): Callable
  {
    match d
    case LogArguments => LogArgumentsAndReturnValue(f)
    case MeasureTime => MeasureExecutionTime(f)
  }

  /** `@ds[0] @ds[1] ... def f`: the last decorator listed is applied first. */
  function Decorate(ds: seq<Decorator>, f: Callable): Callable
  {
    if ds == [] then f else Apply(ds[0], Decorate(ds[1..], f))
  }

  /** However the decorators are stacked, the decorated function keeps the
      wrapped function's name and ends every call exactly as it does. */
  lemma {:induction false} DecoratePreservesResult(ds: seq<Decorator>, f: Callable, args: Args)
    ensures Decorate(ds, f).name == f.name
    ensures Invoke(Decorate(ds, f), args).outcome == Invoke(f, args).outcome
  {
    if ds != [] {
      DecoratePreservesResult(ds[1..], f, args);
    }
  }

  /** With argument logging outermost and timing innermost, a call that returns
      logs the argument records first, then whatever the function itself logs,
      then the timing record, all under the function's own name. */
  lemma StackedLogOrder(f: Callable, args: Args)
    requires Invoke(f, args).outcome.Returned?
    ensures Invoke(Decorate([LogArguments, MeasureTime], f), args).log ==
              [PositionalArguments(f.name, args.positional), KeywordArguments(f.name, args.keyword)]
              + Invoke(f, args).log + [ExecutionTime(f.name)]
  {
    assert [LogArguments, MeasureTime][1..] == [MeasureTime] && [MeasureTime][1..] == [];
    assert Decorate([MeasureTime], f) == MeasureExecutionTime(f);
    assert Decorate([LogArguments, MeasureTime], f) == LogArgumentsAndReturnValue(Decorate([MeasureTime], f));
  }

  /** `add_numbers(num1, num2)`: returns `num1 + num2`; Python's `+` also joins
      two strings, and raises for an integer mixed with a string. */
  function AddNumbersBody(args: Args): (c: Call)
    ensures c.log == []
    ensures c.outcome.Returned? <==>
              args.keyword == [] && |args.positional| == 2 &&
              ((args.positional[0].Int? && args.positional[1].Int?) ||
               (args.positional[0].Str? && args.positional[1].Str?))
  {
    if args.keyword != [] || |args.positional| != 2 then Call(Raised, [])
    else match (args.positional[0], args.positional[1])
      case (Int(a), Int(b)) => Call(Returned(Int(a + b)), [])
      case (Str(a), Str(b)) => Call(Returned(Str(a + b)), [])
      case _ => Call(Raised, [])
  }

  /** `greet()`: takes no arguments and returns "Hello world!". */
  function GreetBody(args: Args): (c: Call)
    ensures c.log == []
    ensures c.outcome.Returned? <==> args.positional == [] && args.keyword == []
    ensures c.outcome.Returned? ==> c.outcome.value == Str("Hello world!")
  {
    if args.positional == [] && args.keyword == [] then Call(Returned(Str("Hello world!")), [])
    else Call(Raised, [])
  }

  /** Both functions are defined under `@log_arguments_and_return_value` and `@measure_execution_time`. */
  const Stack: seq<Decorator> := [LogArguments, MeasureTime]
  const AddNumbers: Callable := Decorate(Stack, Callable("add_numbers", AddNumbersBody))
  const Greet: Callable := Decorate(Stack, Callable("greet", GreetBody))

  /** The decorated `add_numbers` returns the sum of any two integers. */
  lemma AddNumbersReturnsSum(x: int, y: int)
    ensures Invoke(AddNumbers, Args([Int(x), Int(y)], [])).outcome == Returned(Int(x + y))
  {
    DecoratePreservesResult(Stack, Callable("add_numbers", AddNumbersBody), Args([Int(x), Int(y)], []));
  }

  /** `add_numbers(3, 7)` returns 10 and logs its arguments and then its timing. */
  lemma AddNumbersThreeSeven()
    ensures Invoke(AddNumbers, Args([Int(3), Int(7)], [])) ==
              Call(Returned(Int(10)),
                   [PositionalArguments("add_numbers", [Int(3), Int(7)]),
                    KeywordArguments("add_numbers", []),
                    ExecutionTime("add_numbers")])
  {
    var args := Args([Int(3), Int(7)], []);
    AddNumbersReturnsSum(3, 7);
    StackedLogOrder(Callable("add_numbers", AddNumbersBody), args);
  }

  /** `greet()` returns "Hello world!" unchanged and logs both kinds of record. */
  lemma GreetReturnsGreeting()
    ensures Invoke(Greet, Args([], [])) ==
              Call(Returned(Str("Hello world!")),
                   [PositionalArguments("greet", []), KeywordArguments("greet", []), ExecutionTime("greet")])
  {
    var args := Args([], []);
    DecoratePreservesResult(Stack, Callable("greet", GreetBody), args);
    StackedLogOrder(Callable("greet", GreetBody), args);
  }
}
