/**
 * The money types of the tutorial's operator-overloading chapter. Each class
 * holds one private `int` that is set by its constructor and never changed,
 * and every operator builds a new object, so each class is a datatype and
 * each operator a function: the operands cannot be modified.
 *
 * Signed `int` overflow is undefined behaviour in C++, so each operator that
 * adds, subtracts or multiplies requires its exact result to fit in an `int`.
 */
module OperatorOverload {

  import opened CppInt

  /** `Cents`, whose operators are friend functions. */
  datatype Cents = Cents(cents: int32)

  /** `Cents + Cents`. */
  function Plus(c1: Cents, c2: Cents): (r: Cents)
    requires IsInt(c1.cents as int + c2.cents as int)
    ensures r.cents as int == c1.cents as int + c2.cents as int
  {
    Cents(c1.cents + c2.cents)
  }

  /** `Cents - Cents`. */
  function Minus(c1: Cents, c2: Cents): (r: Cents)
    requires IsInt(c1.cents as int - c2.cents as int)
    ensures r.cents as int == c1.cents as int - c2.cents as int
  {
    Cents(c1.cents - c2.cents)
  }

  /** `Cents + int`. */
  function PlusInt(c1: Cents, value: int32): (r: Cents)
    requires IsInt(c1.cents as int + value as int)
    ensures r.cents as int == c1.cents as int + value as int
  {
    Cents(c1.cents + value)
  }

  /** `int + Cents`, which adds the amounts in the order `Cents + int` does. */
  function IntPlus(value: int32, c1: Cents): (r: Cents)
    requires IsInt(c1.cents as int + value as int)
    ensures r.cents as int == value as int + c1.cents as int
  {
    Cents(c1.cents + value)
  }

  /** Subtracting what was added gives the original amount back. */
  lemma MinusUndoesPlus(c1: Cents, c2: Cents)
    requires IsInt(c1.cents as int + c2.cents as int)
    ensures Minus(Plus(c1, c2), c2) == c1
  {
  }

  /** Adding the difference back gives the original amount. */
  lemma PlusUndoesMinus(c1: Cents, c2: Cents)
    requires IsInt(c1.cents as int - c2.cents as int)
    ensures Plus(Minus(c1, c2), c2) == c1
  {
  }

  /** `Cents + Cents` is commutative. */
  lemma PlusCommutes(c1: Cents, c2: Cents)
    requires IsInt(c1.cents as int + c2.cents as int)
    ensures Plus(c1, c2) == Plus(c2, c1)
  {
  }

  /** Mixed addition is commutative, and agrees with adding `Cents(value)`. */
  lemma MixedPlusCommutes(c: Cents, value: int32)
    requires IsInt(c.cents as int + value as int)
    ensures PlusInt(c, value) == IntPlus(value, c)
    ensures PlusInt(c, value) == Plus(c, Cents(value))
  {
  }

  /** `Cents2`, read only through `getCents`. */
  datatype Cents2 = Cents2(cents: int32) {
    /** `getCents`: the amount the constructor was given. */
    function GetCents(): (r: int32)
      ensures Cents2(r) == this
    {
      cents
    }
  }

  /** `Cents2 + Cents2`, a normal function written with `getCents`. */
  function Plus2(c1: Cents2, c2: Cents2): (r: Cents2)
    requires IsInt(c1.GetCents() as int + c2.GetCents() as int)
    ensures r.GetCents() as int == c1.GetCents() as int + c2.GetCents() as int
  {
    Cents2(c1.GetCents() + c2.GetCents())
  }

  /** `Cents3`, whose `operator+` is a member taking the right operand. */
  datatype Cents3 = Cents3(cents: int32) {
    /** `this + c2`. */
    function Plus(c2: Cents3): (r: Cents3)
      requires IsInt(cents as int + c2.cents as int)
      ensures r.GetCents() as int == GetCents() as int + c2.GetCents() as int
    {
      Cents3(cents + c2.cents)
    }

    /** `getCents`: the amount the constructor was given. */
    function GetCents(): (r: int32)
      ensures Cents3(r) == this
    {
      cents
    }
  }

  /** The three ways of overloading `+` compute the same amount. */
  lemma PlusOverloadsAgree(a: int32, b: int32)
    requires IsInt(a as int + b as int)
    ensures Plus(Cents(a), Cents(b)).cents == Plus2(Cents2(a), Cents2(b)).GetCents()
    ensures Plus2(Cents2(a), Cents2(b)).GetCents() == Cents3(a).Plus(Cents3(b)).GetCents()
  {
  }

  /** `Cents4`, with a conversion operator to `int`. */
  datatype Cents4 = Cents4(cents: int32) {
    /** `operator int`. */
    function ToInt(): (r: int32)
      ensures Cents4(r) == this
    {
      cents
    }

    /** `getCents`. */
    function GetCents(): (r: int32)
      ensures r == ToInt()
    {
      cents
    }
  }

  /** `Dollar`, with an explicit conversion operator to `Cents4`. */
  datatype Dollar = Dollar(dollars: int32) {
    /** True when `dollars * 100` does not overflow an `int`. */
    predicate Convertible() {
      IsInt(dollars as int * 100)
    }

    /** `explicit operator Cents4`: the same amount counted in cents. */
    function ToCents4(): (r: Cents4)
      requires Convertible()
      ensures r.GetCents() as int == GetDollars() as int * 100
    {
      Cents4(dollars * 100)
    }

    /** `getDollars`. */
    function GetDollars(): (r: int32)
      ensures Dollar(r) == this
    {
      dollars
    }
  }

  /**
   * Converting to cents loses nothing: the cents are a whole number of
   * dollars, dividing them by 100 recovers the dollars, and two different
   * dollar amounts never convert to the same cents.
   */
  lemma ToCents4RoundTrip(d: Dollar, e: Dollar)
    requires d.Convertible() && e.Convertible()
    ensures d.ToCents4().GetCents() % 100 == 0
    ensures d.ToCents4().GetCents() / 100 == d.GetDollars()
    ensures d.ToCents4() == e.ToCents4() ==> d == e
  {
  }

  /** The conversion is defined exactly for amounts of at most 21474836 dollars either way. */
  lemma ConvertibleRange(d: Dollar)
    ensures d.Convertible() <==> -21474836 <= d.dollars as int <= 21474836
  {
  }
}
