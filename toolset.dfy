/**
 * The toolset example's three function tools: addition that records its
 * result in session state, subtraction, and a greeting.
 */
module Toolset {
  import opened Values

  const LastResultKey := "last_math_result"
  const Greeting := "Hello, "

  /** subtractNumbers: undoes an addition of the same second operand. */
  function SubtractNumbers(a: int, b: int): (r: int)
    ensures r + b == a
  {
    a - b
  }

  /**
   * addNumbers: returns the sum and records it under last_math_result; a
   * refused write is ignored and the sum is still returned.
   */
  method AddNumbers(st: StateStore, a: int, b: int) returns (r: int)
    modifies st
    ensures SubtractNumbers(r, b) == a && SubtractNumbers(r, a) == b
    ensures st.kv == if st.rejection.None? then old(st.kv)[LastResultKey := Int(r)] else old(st.kv)
  {
    r := a + b;
    var err := st.Set(LastResultKey, Int(r));
  }

  /** greetUser: the greeting followed by the name, which can be read back from it. */
  function GreetUser(name: string): (r: string)
    ensures |r| == |Greeting| + |name|
    ensures r[..|Greeting|] == Greeting && r[|Greeting|..] == name
  {
    Greeting + name
  }

  /** Different names get different greetings. */
  lemma GreetingsTellNamesApart(a: string, b: string)
    requires a != b
    ensures GreetUser(a) != GreetUser(b)
  {
    assert GreetUser(a)[|Greeting|..] == a;
  }
}
