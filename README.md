# Decorator playground: a verified Dafny model

This project models two short Python scripts that show the decorator pattern in two forms.

- **Class-based decorator.** `PrimeDeterminingComponent.execute(number)` tests primality by trial division. It returns false below 2 and true for 2. Otherwise it tries every `i` from 2 up to the integer square root of `number` and returns false at the first `i` that divides it, or true if none does. `ConcreteDecorator` stores one component in `_decorated`. Its `execute` prints a "running" line, delegates to the component, prints the result and prints a "stopping" line. It returns nothing, so a Python caller gets `None`.
- **Function decorators.** `log_arguments_and_return_value` logs a call's positional and keyword arguments and then returns the wrapped function's result. `measure_execution_time` times the call, logs the elapsed time and returns the same result. `add_numbers` and `greet` are defined under both decorators.

`playground.py` lines 4-29 repeat `decorators.py` lines 12-37 line for line. One model therefore serves both files. Some rows below cite the copy in `playground.py`.

Modules:

- `Primality` (`primality.dfy`) defines what "prime" means (`IsPrime`: at least 2, with no divisor strictly between 1 and itself). It proves that trial division up to the square root decides exactly that.
- `Decorators` (`decorators.dfy`) holds the two classes. `PrimeDeterminingComponent.Execute` is the trial-division loop, proved against `IsPrime`. `ConcreteDecorator` has the field `decorated` and delegates to it.
- `FunctionDecorators` (`function_decorators.dfy`) models a Python function as a `Callable`: its `__name__` and a total function from arguments to a `Call`. A `Call` holds the outcome (a returned value, or a raised exception) and the log records written, in order. The two decorators are higher-order functions on `Callable`.
- `Playground` (`playground.dfy`) models the script's module-level code, which runs the decorator on 9.

Design decisions:

- **Loop bound.** The Python loop runs `for i in range(2, int(sqrt(number)) + 1)`. The model runs `while i * i <= number`, which tries exactly the candidates up to the integer square root. The two agree whenever `int(sqrt(number))` equals the integer square root, which holds for every `number` below 2**52. Where the float rounds one too high, the extra candidate never divides `number` (`Primality.OvershootCandidateNeverDivides`), so the answer is the same. See "Left out" for the cases where they differ.
- **The decorator's result.** `ConcreteDecorator.execute` is annotated `-> bool` but has no `return`. The model keeps that behaviour: `ConcreteDecorator.Execute` has no boolean result. The printed lines are returned as a trace, and the wrapped component's result reaches the caller only through the middle line.
- **Empty arguments.** The wrappers log the raw tuple and dict, so an empty call logs `()` and `{}`. Each argument record carries the argument sequence exactly as it was passed, empty or not.

## Model

| member | source | states |
|---|---|---|
| `Decorators.PrimeDeterminingComponent.Execute` | decorators.py:21-30 | The result is true exactly when `number` is prime. The candidates tried are 2, 3, 4, … in order, each with `i * i <= number`, and none is tried when `number <= 2`. Every candidate before the last leaves a remainder. A false result for `number > 2` comes from a last candidate that divides `number`, so the search stops at the first divisor. A true result for `number > 2` means no candidate divided `number` and the next candidate's square exceeds it. |
| `Primality.SquareRootBoundSuffices` | playground.py:19-22 | Falling out of the loop and returning true is correct. If no `d` in `[2, i)` divides `n` and `i * i > n`, then `n` is prime. |
| `Primality.CandidateDivisorRefutes` | playground.py:19-21 | Returning false at a candidate is correct. A candidate `i >= 2` with `i * i <= n` that divides `n` shows that `n` is not prime. |
| `Primality.SmallerCofactor` | playground.py:19 | Every divisor of `n` strictly between 1 and `n` pairs with such a divisor whose square is at most `n`. This is why the search can stop at the square root. |
| `Primality.PrimeIffNoCandidateDivides` | playground.py:14-22 | Both directions: `n` is prime if and only if `n >= 2` and no `d >= 2` with `d * d <= n` divides it. So the bounded test is complete. |
| `Primality.NineIsNotPrime` | playground.py:33 | 9 is not prime. |
| `Primality.SeventeenIsPrime` | decorators.py:22-30 | A spot check of the reference definition `IsPrime`, not of a value the scripts compute: 17 is prime, and the candidates 2, 3 and 4 alone settle it. |
| `Primality.OvershootCandidateNeverDivides` | decorators.py:27 | If the float square root rounds one too high, the loop gets one extra candidate `i`, with `i * i > number`, after all smaller candidates failed. That candidate never divides `number`, so the extra iteration cannot change the result. |
| `Decorators.ConcreteDecorator.constructor` | decorators.py:17-19 | The new decorator holds exactly the component it was given. |
| `Decorators.ConcreteDecorator.Execute` | decorators.py:32-37 | It produces no boolean. Its three lines carry the wrapped component's result for the same `number`: the result line reads "True" exactly when `number` is prime. |
| `Decorators.DecoratorTrace` | playground.py:26-29 | Three lines: "my decorator running", the result line, then "my decorator stopping". The result line reads "The result is True" exactly when the result is true, and "The result is False" otherwise. |
| `Decorators.BoolText` | playground.py:28 | A boolean renders as "True" exactly for true and as "False" for false, as in a Python f-string. |
| `FunctionDecorators.LogArgumentsAndReturnValue` | decorators.py:41-49 | The wrapper keeps the wrapped function's name and ends every call exactly as the function does, returning the same value or propagating its exception. It first logs the positional and then the keyword arguments under that name, ahead of everything the function logs. |
| `FunctionDecorators.MeasureExecutionTime` | decorators.py:51-61 | The wrapper keeps the name and ends every call exactly as the wrapped function does. After a call that returns, it adds one timing record under the function's name. After a call that raises, it adds nothing. |
| `FunctionDecorators.DecoratePreservesResult` | decorators.py:63-75 | Any stack of the two decorators, in any order and any depth, keeps the function's name and its outcome on every argument list. |
| `FunctionDecorators.StackedLogOrder` | decorators.py:63-64 | With argument logging outermost and timing innermost, a returning call logs in this order: the argument records, the function's own records, then the timing record. All of them carry the undecorated function's name. |
| `FunctionDecorators.AddNumbersBody` | decorators.py:65-66 | `add_numbers` logs nothing itself. Among integer and string operands, it returns exactly when it gets two positional operands of the same kind (two integers or two strings) and no keyword arguments, and it raises otherwise. |
| `FunctionDecorators.AddNumbersReturnsSum` | decorators.py:63-66 | The decorated `add_numbers(x, y)` returns `x + y` for all integers. |
| `FunctionDecorators.AddNumbersThreeSeven` | decorators.py:80 | The decorated `add_numbers(3, 7)` returns 10. It logs the positional arguments `(3, 7)`, the empty keyword arguments, and then one timing record, all named `add_numbers`. |
| `FunctionDecorators.GreetBody` | decorators.py:70-71 | `greet` returns "Hello world!" exactly when it is called with no arguments, logs nothing itself, and raises otherwise. |
| `FunctionDecorators.GreetReturnsGreeting` | decorators.py:81 | The decorated `greet()` returns "Hello world!" unchanged. It logs both argument records and then a timing record, all named `greet`. |
| `Playground.Demo` | playground.py:31-33 | Building the component and the decorator and running `execute(9)` prints the three decorator lines with "The result is False", because 3 divides 9 and 3 * 3 <= 9. |

## Left out

- Console output: the `print` calls of `ConcreteDecorator.execute` and of `main` are not performed. The decorator's three lines are returned as a trace instead.
- Log text: `logger.warning` and the f-string formatting of `args`, `kwargs` and the elapsed time are not modelled. Each warning is an abstract record that keeps only its kind, the function name and the arguments.
- Timing: `time.perf_counter` and the elapsed-time subtraction are wall-clock, floating-point values. A timing record carries no duration.
- `Decorators.PrimeDeterminingComponent.Execute`: the loop bound is the exact integer square root (`i * i <= number`). Python computes `int(sqrt(number)) + 1` in floating point. The model does not capture two behaviours of that computation:
  - When the integer square root exceeds 2**53 (`number` above about 2**106), the float square root can round below it. Python then skips the last candidates and can report a composite as prime, for example the square of a large prime. The model answers `IsPrime` exactly.
  - For a `number` too large to convert to a float (from about 2**1024 upward), `sqrt` raises `OverflowError`, which propagates to the caller. The model returns a boolean there instead.
- Polymorphism: the `AbstractComponent` base class is not modelled. The decorator's field is typed as `PrimeDeterminingComponent`, the only component the scripts ever wrap. A decorator wrapping another decorator, whose inner result would be `None`, is not modelled.
- `functools.wraps`: of the metadata it copies, only `__name__` is kept, because the log records use it.
- `FunctionDecorators.Value`: only `int` and `str` arguments and results are modelled. Python's `+` on other operands is not modelled: float, mixed int and float, bool (an int subclass), list and tuple all return a value in Python.
- `FunctionDecorators.AddNumbersBody`: Python would also bind `num1` and `num2` given as keyword arguments. The model treats any call with keyword arguments as raising, so Python's argument binding is not modelled.
- `say_name` (decorators.py:73-76): not part of this model. It depends on Python's default and keyword argument binding and on f-string formatting of arbitrary values.
- `main` (decorators.py:78-85): only the results of `add_numbers(3, 7)` and `greet()` are stated, as lemmas. The `say_name` call and the printing are not modelled.
