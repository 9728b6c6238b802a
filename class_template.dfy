/**
 * The array class templates of the tutorial's class-template chapter:
 * a heap array that can be erased, a fixed-size array with value-initialised
 * storage, its `bool`/10 specialisation used as a set of ten flags, its
 * partial specialisation for `double`, the member specialisation of
 * `operator[]` for `int`/100, and a base/derived pair whose derived
 * `operator[]` drops the bounds check.
 *
 * A C `assert` that fails aborts the program, so every bounds assertion
 * becomes a precondition. `operator[]` returns a reference, which the caller
 * can read or assign through; each class therefore has a `Get` (read through
 * the reference) and a `Set` (assign through it). A C++ `double` element is
 * only stored and loaded here, never computed with, and is modelled by `real`.
 */
module ClassTemplate {

  import opened CppInt

  /** Sets element `i` of `s` to `v`, leaving every other element alone. */
  function Update<T>(s: seq<T>, i: nat, v: T): (r: seq<T>)
    requires i < |s|
    ensures |r| == |s| && r[i] == v
    ensures forall j :: 0 <= j < |s| && j != i ==> r[j] == s[j]
  {
    s[i := v]
  }

  /** `Array<T>`: a buffer of `length` elements owned through `ptr`. */
  class Array<T(0)> {
    var ptr: array?<T>
    var length: nat

    /** `ptr` is null exactly after `erase`, and then `length` is 0. */
    ghost predicate Valid()
      reads this
    {
      (ptr == null ==> length == 0) && (ptr != null ==> ptr.Length == length)
    }

    /** The elements the buffer currently holds. */
    ghost function Elements(): (s: seq<T>)
      requires Valid()
      reads this, ptr
      ensures |s| == length
    {
      if ptr == null then [] else ptr[..]
    }

    /**
     * `new T[length]` default-initialises the elements, which for a scalar
     * `T` leaves them indeterminate: only their number is promised.
     */
    constructor (length: nat)
      ensures Valid() && this.length == length
      ensures ptr != null && fresh(ptr)
    {
      this.length := length;
      ptr := new T[length];
    }

    /** Frees the buffer; afterwards no index passes `operator[]`'s check. */
    method Erase()
      requires Valid()
      modifies this
      ensures Valid() && ptr == null && length == 0
      ensures Elements() == []
    {
      ptr := null;
      length := 0;
    }

    /** `operator[]` read through: the element at `index`. */
    method Get(index: nat) returns (x: T)
      requires Valid() && index < length
      ensures x == Elements()[index]
    {
      x := ptr[index];
    }

    /** `operator[]` assigned through: element `index` becomes `v`. */
    method Set(index: nat, v: T)
      requires Valid() && index < length
      modifies ptr
      ensures Valid()
      ensures Elements() == Update(old(Elements()), index, v)
    {
      ptr[index] := v;
    }
  }

  /**
   * `StaticArray<T, size>`. `T m_array[size] {}` value-initialises every
   * element; Dafny has no generic value-initialisation, so the caller passes
   * `T{}` as `zero` (0 for an arithmetic `T`, `false` for `bool`).
   */
  class StaticArray<T(0)> {
    const size: nat
    const m_array: array<T>

    ghost predicate Valid() {
      m_array.Length == size
    }

    constructor (size: nat, zero: T)
      ensures Valid() && this.size == size && fresh(m_array)
      ensures forall i :: 0 <= i < size ==> m_array[i] == zero
    {
      this.size := size;
      m_array := new T[size](_ => zero);
    }

    /** `operator[]` read through; the assertion demands `index < size`. */
    method Get(index: nat) returns (x: T)
      requires Valid() && index < size
      ensures x == m_array[index]
    {
      x := m_array[index];
    }

    /** `operator[]` assigned through. */
    method Set(index: nat, v: T)
      requires Valid() && index < size
      modifies m_array
      ensures m_array[..] == Update(old(m_array[..]), index, v)
    {
      m_array[index] := v;
    }
  }

  /** Writing the same value twice is the same as writing it once (`set`/`reset` are idempotent). */
  lemma UpdateIdempotent<T>(s: seq<T>, i: nat, v: T)
    requires i < |s|
    ensures Update(Update(s, i, v), i, v) == Update(s, i, v)
  {
  }

  /** Of two writes to the same element only the last one is visible. */
  lemma UpdateLastWins<T>(s: seq<T>, i: nat, first: T, second: T)
    requires i < |s|
    ensures Update(Update(s, i, first), i, second) == Update(s, i, second)
  {
  }

  /** Writes to two different elements do not interfere, in either order. */
  lemma UpdateCommutes<T>(s: seq<T>, i: nat, a: T, j: nat, b: T)
    requires i < |s| && j < |s| && i != j
    ensures Update(Update(s, i, a), j, b) == Update(Update(s, j, b), i, a)
  {
  }

  /** `StaticArray<bool, 10>`: ten flags, all `false` at first. */
  class FlagArray {
    const m_array: array<bool>

    ghost predicate Valid() {
      m_array.Length == 10
    }

    constructor ()
      ensures Valid() && fresh(m_array)
      ensures m_array[..] == seq(10, _ => false)
    {
      m_array := new bool[10](_ => false);
    }

    /** `set(index)`: flag `index` becomes true, the others are unchanged. */
    method SetFlag(index: nat)
      requires Valid() && index < 10
      modifies m_array
      ensures m_array[..] == Update(old(m_array[..]), index, true)
    {
      m_array[index] := true;
    }

    /** `reset(index)`: flag `index` becomes false, the others are unchanged. */
    method ResetFlag(index: nat)
      requires Valid() && index < 10
      modifies m_array
      ensures m_array[..] == Update(old(m_array[..]), index, false)
    {
      m_array[index] := false;
    }

    /** `get(index)`: the flag at `index`. */
    method GetFlag(index: nat) returns (b: bool)
      requires Valid() && index < 10
      ensures b == m_array[index]
    {
      b := m_array[index];
    }
  }

  /** `StaticArray<double, length>`: `length` doubles, all 0.0 at first. */
  class DoubleStaticArray {
    const length: nat
    const m_array: array<real>

    ghost predicate Valid() {
      m_array.Length == length
    }

    constructor (length: nat)
      ensures Valid() && this.length == length && fresh(m_array)
      ensures forall i :: 0 <= i < length ==> m_array[i] == 0.0
    {
      this.length := length;
      m_array := new real[length](_ => 0.0);
    }

    /** `operator[]` read through; the assertion demands `index < length`. */
    method Get(index: nat) returns (x: real)
      requires Valid() && index < length
      ensures x == m_array[index]
    {
      x := m_array[index];
    }

    /** `operator[]` assigned through. */
    method Set(index: nat, v: real)
      requires Valid() && index < length
      modifies m_array
      ensures m_array[..] == Update(old(m_array[..]), index, v)
    {
      m_array[index] := v;
    }
  }

  /**
   * `StaticArray<int, 100>`, the instance whose `operator[]` is replaced by a
   * member specialisation asserting `index < 100`.
   */
  class IntStaticArray100 {
    const m_array: array<int32>

    ghost predicate Valid() {
      m_array.Length == 100
    }

    constructor ()
      ensures Valid() && fresh(m_array)
      ensures forall i :: 0 <= i < 100 ==> m_array[i] == 0
    {
      m_array := new int32[100](_ => 0);
    }

    /** The specialised `operator[]` read through. */
    method Get(index: nat) returns (x: int32)
      requires Valid() && index < 100
      ensures x == m_array[index]
    {
      x := m_array[index];
    }

    /** The specialised `operator[]` assigned through. */
    method Set(index: nat, v: int32)
      requires Valid() && index < 100
      modifies m_array
      ensures m_array[..] == Update(old(m_array[..]), index, v)
    {
      m_array[index] := v;
    }
  }

  /** `BaseStaticArray<T, size>`: the same storage as `StaticArray`, protected. */
  class BaseStaticArray<T(0)> {
    const size: nat
    const m_array: array<T>

    ghost predicate Valid() {
      m_array.Length == size
    }

    constructor (size: nat, zero: T)
      ensures Valid() && this.size == size && fresh(m_array)
      ensures forall i :: 0 <= i < size ==> m_array[i] == zero
    {
      this.size := size;
      m_array := new T[size](_ => zero);
    }

    /** The base `operator[]` read through; it asserts `index < size`. */
    method Get(index: nat) returns (x: T)
      requires Valid() && index < size
      ensures x == m_array[index]
    {
      x := m_array[index];
    }

    /** The base `operator[]` assigned through; it asserts `index < size`. */
    method Set(index: nat, v: T)
      requires Valid() && index < size
      modifies m_array
      ensures m_array[..] == Update(old(m_array[..]), index, v)
    {
      m_array[index] := v;
    }
  }

  /**
   * `DerivedStaticArray<length>`, a `BaseStaticArray<double, length>` whose own
   * `operator[]` hides the base one and checks nothing. The inherited part is
   * held as `base`, and the derived `operator[]` indexes its `m_array`
   * directly, as the source does through `BaseStaticArray<double, length>::m_array`.
   * An index past the end is then undefined behaviour instead of an abort,
   * so the bound the source no longer asserts is still demanded here.
   */
  class DerivedStaticArray {
    const length: nat
    const base: BaseStaticArray<real>

    ghost predicate Valid() {
      base.Valid() && base.size == length
    }

    constructor (length: nat)
      ensures Valid() && this.length == length && fresh(base) && fresh(base.m_array)
      ensures forall i :: 0 <= i < length ==> base.m_array[i] == 0.0
    {
      this.length := length;
      base := new BaseStaticArray(length, 0.0);
    }

    /** The derived, unchecked `operator[]` read through. */
    method Get(index: nat) returns (x: real)
      requires Valid() && index < length
      ensures x == base.m_array[index]
    {
      x := base.m_array[index];
    }

    /** The derived, unchecked `operator[]` assigned through. */
    method Set(index: nat, v: real)
      requires Valid() && index < length
      modifies base.m_array
      ensures base.m_array[..] == Update(old(base.m_array[..]), index, v)
    {
      base.m_array[index] := v;
    }
  }

  /**
   * `test_static_array`: `StaticArray<int, 12>` instantiates the primary
   * template, `StaticArray<double, 4>` the partial specialisation for `double`;
   * both start out all zero.
   */
  method TestStaticArray() returns (intArray: StaticArray<int32>, doubleArray: DoubleStaticArray)
    ensures intArray.Valid() && intArray.size == 12
    ensures forall i :: 0 <= i < 12 ==> intArray.m_array[i] == 0
    ensures doubleArray.Valid() && doubleArray.length == 4
    ensures forall i :: 0 <= i < 4 ==> doubleArray.m_array[i] == 0.0
  {
    intArray := new StaticArray(12, 0);
    doubleArray := new DoubleStaticArray(4);
  }

  /**
   * What a caller of `StaticArray<bool, 10>` sees: after `set(i)` the flag
   * reads true, after `reset(i)` it reads false, a second `set` changes
   * nothing, and the other nine flags keep their values throughout.
   */
  method FlagArrayClient(i: nat, j: nat) returns (afterSet: bool, afterReset: bool, other: bool)
    requires i < 10 && j < 10 && i != j
    ensures afterSet && !afterReset && !other
  {
    var flags := new FlagArray();
    flags.SetFlag(i);
    afterSet := flags.GetFlag(i);
    var once := flags.m_array[..];
    flags.SetFlag(i);
    UpdateIdempotent(once, i, true);
    assert flags.m_array[..] == once;
    flags.ResetFlag(i);
    afterReset := flags.GetFlag(i);
    other := flags.GetFlag(j);
  }
}
