/** The class-based decorator: a primality-checking component and a decorator
    that holds one component and delegates `execute` to it. */
module Decorators {
  import opened Primality

  /** The component that decides primality by trial division. It has no state. */
  class PrimeDeterminingComponent {

    constructor ()
    {
    }

    /** Returns false below 2 and true for 2; otherwise tries each candidate `i`
        from 2 while `i * i <= number` and stops with false at the first one that
        divides `number`. The ghost `tried` lists the candidates in the order tried. */
    method Execute(number: int) returns (isPrime: bool, ghost tried: seq<int>)
      ensures isPrime <==> IsPrime(number)
      ensures number <= 2 ==> tried == []
      ensures forall k :: 0 <= k < |tried| ==> tried[k] == k + 2 && tried[k] * tried[k] <= number
      ensures forall k :: 0 <= k < |tried| - 1 ==> number % tried[k] != 0
      ensures !isPrime && number > 2 ==> tried != [] && number % tried[|tried| - 1] == 0
      ensures isPrime && number > 2 ==>
                (forall t :: t in tried ==> number % t != 0) && (|tried| + 2) * (|tried| + 2) > number
    {
      tried := [];
      if number < 2 {
        return false, tried;
      } else if number == 2 {
        return true, tried;
      }
      var i := 2;
      while i * i <= number
        invariant 2 <= i <= number
        invariant |tried| == i - 2
        invariant forall k :: 0 <= k < |tried| ==> tried[k] == k + 2 && tried[k] * tried[k] <= number
        invariant forall d :: 2 <= d < i ==> number % d != 0
        decreases number - i
      {
        tried := tried + [i];
        if number % i == 0 {
          CandidateDivisorRefutes(number, i);
          return false, tried;
        }
        MulMonotone(i, 2, i);
        i := i + 1;
      }
      SquareRootBoundSuffices(number, i);
      return true, tried;
    }
  }

  /** Python's rendering of a boolean inside an f-string. */
  function BoolText(b: bool): (s: string)
    ensures s == "True" <==> b
    ensures !b ==> s == "False"
  {
    if b then "True" else "False"
  }

  /** The three lines the decorator prints around a delegated call whose result is `result`. */
  function DecoratorTrace(result: bool): (lines: seq<string>)
    ensures |lines| == 3
    ensures lines[0] == "my decorator running" && lines[2] == "my decorator stopping"
    ensures lines[1] == "The result is True" <==> result
    ensures !result ==> lines[1] == "The result is False"
  {
    ["my decorator running", "The result is " + BoolText(result), "my decorator stopping"]
  }

  /** A decorator holding exactly one wrapped component. */
  class ConcreteDecorator {
    var decorated: PrimeDeterminingComponent

    /** Stores the component it is given. */
    constructor (component: PrimeDeterminingComponent)
      ensures decorated == component
    {
      decorated := component;
    }

    /** Delegates to the wrapped component with the same number and returns
        nothing to its caller: the wrapped result shows up only in the printed
        lines, which this model returns as `trace`. */
    method Execute(number: int) returns (trace: seq<string>)
      ensures trace == DecoratorTrace(IsPrime(number))
    {
      var result, tried := decorated.Execute(number);
      trace := DecoratorTrace(result);
    }
  }
}
