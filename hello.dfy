/** The greeting helper of `src/hello.js`. */
module Hello {

  /** `greet(name)`: the template "Hello, ${name}!". */
  function Greet(name: string): (r: string)
    ensures |r| == |name| + 8
    ensures r[..7] == "Hello, " && r[|r| - 1] == '!'
    ensures r[7..|r| - 1] == name
  {
    "Hello, " + name + "!"
  }

  /** Two names give the same greeting only if they are the same name. */
  lemma GreetInjective(a: string, b: string)
    requires Greet(a) == Greet(b)
    ensures a == b
  {
    assert a == Greet(a)[7..|Greet(a)| - 1];
  }

  /** The three cases of the test suite. */
  lemma GreetExamples()
    ensures Greet("World") == "Hello, World!"
    ensures Greet("LoopShip") == "Hello, LoopShip!"
    ensures Greet("") == "Hello, !"
  {
  }
}
