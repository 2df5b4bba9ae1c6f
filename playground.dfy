/** The playground script: it builds a prime-determining component, wraps it
    in a decorator and runs the decorator on 9. */
module Playground {
  import opened Primality
  import opened Decorators

  /** The script's module-level code. The decorator's own return value is
      discarded; what the run shows is the decorator's three printed lines. */
  method Demo() returns (trace: seq<string>)
    ensures trace == ["my decorator running", "The result is False", "my decorator stopping"]
  {
    var component := new PrimeDeterminingComponent();
    var decorator := new ConcreteDecorator(component);
    assert decorator.decorated == component;
    trace := decorator.Execute(9);
    NineIsNotPrime();
  }
}
