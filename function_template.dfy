/**
 * The two function templates of the tutorial's function-template chapter,
 * instantiated with `int` (the instantiation the chapter's own calls use).
 */
module FunctionTemplate {

  import opened CppInt

  /** `multiply<int>(a, b)`; signed overflow is undefined, so it is excluded. */
  function Multiply(a: int32, b: int32): (r: int32)
    requires IsInt(a as int * b as int)
    ensures r as int == a as int * b as int
  {
    a * b
  }

  /** `add<int, int>(a, b)`: the sum, converted to `int` (which changes nothing). */
  function Add(a: int32, b: int32): (r: int32)
    requires IsInt(a as int + b as int)
    ensures r as int == a as int + b as int
  {
    a + b
  }

  /** `multiply(1, 2)` is 2 (the chapter's comment beside the call says 3). */
  lemma MultiplyOneTwo()
    ensures Multiply(1, 2) == 2
  {
  }

  /** Multiplying `int`s does not depend on the order of the operands. */
  lemma MultiplyCommutes(a: int32, b: int32)
    requires IsInt(a as int * b as int)
    ensures Multiply(a, b) == Multiply(b, a)
  {
  }

  /** Adding `int`s does not depend on the order of the operands. */
  lemma AddCommutes(a: int32, b: int32)
    requires IsInt(a as int + b as int)
    ensures Add(a, b) == Add(b, a)
  {
  }
}
