/**
 * The functions of the tutorial's function chapter that have a body and
 * return a value. Each one is a single `return`.
 *
 * Functions that take or return `int&` or `int*` work on an `int` object
 * that lives elsewhere; `IntObject` stands for such an object, and a
 * returned reference or pointer is the `IntObject` it designates, so the
 * model says which argument is returned, not only its value.
 */
module Functions {

  import opened CppInt
  import FunctionTemplate

  /** An `int` object that a reference or a pointer can designate. */
  class IntObject {
    var value: int32

    constructor (value: int32)
      ensures this.value == value
    {
      this.value := value;
    }
  }

  /** `fn18`: return by value of `a + b`. */
  function Fn18(a: int32, b: int32): (r: int32)
    requires IsInt(a as int + b as int)
    ensures r as int == a as int + b as int
  {
    a + b
  }

  /** `fn18` computes what the template `add<int, int>` computes. */
  lemma Fn18IsAdd(a: int32, b: int32)
    requires IsInt(a as int + b as int)
    ensures Fn18(a, b) == FunctionTemplate.Add(a, b)
  {
  }

  /** `fn19`: `str1` followed by `str2`. */
  function Fn19(str1: string, str2: string): (r: string)
    ensures |r| == |str1| + |str2|
    ensures r[..|str1|] == str1 && r[|str1|..] == str2
  {
    var result := str1 + str2;
    result
  }

  /**
   * `fn20`: a reference to the larger of `a` and `b`. `a` is returned only
   * when it is strictly larger, so on a tie the reference is to `b`.
   */
  function Fn20(a: IntObject, b: IntObject): (r: IntObject)
    reads a, b
    ensures r == a || r == b
    ensures r.value >= a.value && r.value >= b.value
    ensures r != b ==> a.value > b.value
  {
    if a.value > b.value then a else b
  }

  /** Through the returned reference, a caller can change only the larger object. */
  method Fn20Assign(a: IntObject, b: IntObject, v: int32)
    modifies a, b
    ensures old(a.value) > old(b.value) ==> a.value == v && b.value == old(b.value)
    ensures old(a.value) <= old(b.value) ==> b.value == v && (a != b ==> a.value == old(a.value))
  {
    var r := Fn20(a, b);
    r.value := v;
  }

  /** `fn23`: the deduced return type is `int` and the value is 10. */
  function Fn23(): (r: int32)
    ensures r == 10
  {
    10
  }

  /** `fn24`: a reference to its own argument. */
  function Fn24(a: IntObject): (r: IntObject)
    ensures r == a
  {
    a
  }

  /** `fn26`: the pointer it was given, null included. */
  function Fn26(a: IntObject?): (r: IntObject?)
    ensures r == a
  {
    a
  }

  /** `fn28(int)`: its argument. */
  function Fn28(a: int32): (r: int32)
    ensures r == a
  {
    a
  }

  /**
   * `fn29`, every overload: the value the pointer designates. The pointer is
   * dereferenced without a check, so it must not be null; the function only
   * reads the object.
   */
  function Fn29(a: IntObject): (r: int32)
    reads a
    ensures r == a.value
  {
    a.value
  }

  /** `fn31`, declared `inline`: its argument. */
  function Fn31(a: int32): (r: int32)
    ensures r == a
  {
    a
  }

  /** Reading through the reference of `fn20` gives the larger value. */
  lemma Fn20ValueIsMax(a: IntObject, b: IntObject)
    ensures Fn29(Fn20(a, b)) == if a.value >= b.value then a.value else b.value
  {
  }

  /** Reading through `fn24`'s reference or `fn26`'s pointer gives the argument's value. */
  lemma AliasesReadTheArgument(a: IntObject)
    ensures Fn29(Fn24(a)) == a.value
    ensures Fn26(a) != null && Fn29(Fn26(a)) == a.value
  {
  }

  /** `Decryptor`, a function object with no state. */
  datatype Decryptor = Decryptor {
    /** `operator()`: the "decrypted" string, which is its input unchanged. */
    function Call(str: string): (r: string)
      ensures r == str
    {
      str
    }
  }

  /** `test_functor`: calling the functor on a literal gives the literal back. */
  lemma TestFunctor()
    ensures Decryptor().Call("Encrypted string") == "Encrypted string"
  {
  }
}
