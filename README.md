# mycpp: the runtime behaviour of a C++ tutorial, in Dafny

The mycpp repository is a C++ tutorial: short, commented files that each
demonstrate one language feature. Most of it is syntax with no behaviour.
This project models the parts that compute something, and proves what they
promise:

- `ClassTemplate` (`language_itself/class_template.h`): the heap array
  `Array<T>` that can be erased, the fixed-size `StaticArray<T, size>` with
  value-initialised storage, its `bool`/10 specialisation used as ten flags
  (`set`/`reset`/`get`), its partial specialisation for `double`, the member
  specialisation of `operator[]` for `StaticArray<int, 100>`, and the
  `BaseStaticArray`/`DerivedStaticArray` pair. Each is a class over a Dafny
  `array`; methods that write say the new contents in terms of the old ones.
  A bounds `assert` aborts the program when it fails, so it is a precondition.
  `operator[]` returns a reference, modelled by `Get` (reading through it)
  and `Set` (assigning through it).
- `OperatorOverload` (`language_itself/operator_overload.cpp`): the money
  types `Cents`, `Cents2`, `Cents3`, `Cents4` and `Dollar` as datatypes, and
  their operators and conversions as functions.
- `MultiDimArray` (`language_itself/main.cpp`): `fn8`, the triple loop that
  sums the first `count` slabs of an `int[2][3][5]`, proved against a
  recursive sum, and the array `main` passes it (sum 240).
- `Functions` (`language_itself/function.cpp`): the helpers that return a
  value. Those returning a reference or a pointer return the `IntObject`
  (an `int` object) they designate, so the model says which argument aliases
  the result.
- `Enums` (`language_itself/enum.cpp`): `Color`, `Color8` and `Month` with
  the underlying value of each enumerator, aliases included.
- `FunctionTemplate` (`language_itself/function_template.cc`): `multiply`
  and `add` instantiated with `int`.
- `CppInt`: the C++ `int` (`int32`) and `uint8_t` (`uint8`) types. Signed
  overflow is undefined behaviour in C++, so every `int` operation that could
  overflow requires that its exact result fits.

The comment beside `multiply(1, 2)` in `language_itself/function_template.cc`
says it returns 3. The code returns 2, and the model follows the code
(`FunctionTemplate.MultiplyOneTwo`).

## Model

| member | source | states |
|---|---|---|
| `ClassTemplate.Update` | language_itself/class_template.h:90-98 | writing element `i` gives a sequence of the same length holding the new value at `i` and the old value everywhere else |
| `ClassTemplate.Array.constructor` | language_itself/class_template.h:14-16 | a new `Array(length)` owns a fresh buffer of exactly `length` elements (their values are indeterminate and not promised) |
| `ClassTemplate.Array.Erase` | language_itself/class_template.h:28-32 | after `erase` the pointer is null, `length` is 0 and the array holds no element, so no index passes `operator[]`'s check |
| `ClassTemplate.Array.Get` | language_itself/class_template.h:46-50 | `operator[]` requires `index < length` and reads the element at `index` |
| `ClassTemplate.Array.Set` | language_itself/class_template.h:46-50 | assigning through `operator[]` requires `index < length` and changes only element `index` |
| `ClassTemplate.StaticArray.constructor` | language_itself/class_template.h:70-71 | every one of the `size` elements starts value-initialised |
| `ClassTemplate.StaticArray.Get` | language_itself/class_template.h:66-69 | `operator[]` requires `index < size` and reads element `index` |
| `ClassTemplate.StaticArray.Set` | language_itself/class_template.h:66-69 | assigning through `operator[]` requires `index < size` and changes only element `index` |
| `ClassTemplate.UpdateIdempotent` | language_itself/class_template.h:90-98 | `set` twice (or `reset` twice) leaves the same state as once |
| `ClassTemplate.UpdateLastWins` | language_itself/class_template.h:90-98 | after `set(i)` then `reset(i)` (or the reverse) only the last write is visible |
| `ClassTemplate.UpdateCommutes` | language_itself/class_template.h:90-98 | writes to two different flags give the same state in either order |
| `ClassTemplate.FlagArray.constructor` | language_itself/class_template.h:105-106 | all ten flags start false |
| `ClassTemplate.FlagArray.SetFlag` | language_itself/class_template.h:90-93 | `set(i)` requires `i < 10`, makes flag `i` true and leaves the other nine unchanged |
| `ClassTemplate.FlagArray.ResetFlag` | language_itself/class_template.h:95-98 | `reset(i)` requires `i < 10`, makes flag `i` false and leaves the other nine unchanged |
| `ClassTemplate.FlagArray.GetFlag` | language_itself/class_template.h:100-103 | `get(i)` requires `i < 10` and returns flag `i` |
| `ClassTemplate.FlagArrayClient` | language_itself/class_template.h:90-106 | a caller sees `get(i)` true after `set(i)`, false after `reset(i)`, and an untouched flag still false |
| `ClassTemplate.DoubleStaticArray.constructor` | language_itself/class_template.h:116-117 | the partial specialisation for `double` starts with every element 0.0 |
| `ClassTemplate.DoubleStaticArray.Get` | language_itself/class_template.h:112-115 | its `operator[]` requires `index < length` and reads element `index` |
| `ClassTemplate.DoubleStaticArray.Set` | language_itself/class_template.h:112-115 | assigning through it requires `index < length` and changes only element `index` |
| `ClassTemplate.IntStaticArray100.constructor` | language_itself/class_template.h:70-71 | `StaticArray<int, 100>` starts with all 100 elements 0 |
| `ClassTemplate.IntStaticArray100.Get` | language_itself/class_template.h:123-127 | the specialised `operator[]` requires `index < 100` and reads element `index` |
| `ClassTemplate.IntStaticArray100.Set` | language_itself/class_template.h:123-127 | assigning through it requires `index < 100` and changes only element `index` |
| `ClassTemplate.BaseStaticArray.constructor` | language_itself/class_template.h:138-139 | every element starts value-initialised |
| `ClassTemplate.BaseStaticArray.Get` | language_itself/class_template.h:134-137 | the base `operator[]` requires `index < size` and reads element `index` |
| `ClassTemplate.BaseStaticArray.Set` | language_itself/class_template.h:134-137 | assigning through the base `operator[]` requires `index < size` and changes only element `index` |
| `ClassTemplate.DerivedStaticArray.constructor` | language_itself/class_template.h:138-143 | the inherited `BaseStaticArray<double, length>` part starts with every element 0.0 |
| `ClassTemplate.DerivedStaticArray.Get` | language_itself/class_template.h:145-147 | the unchecked derived `operator[]` is defined only for `index < length` and reads element `index` of the inherited `m_array` |
| `ClassTemplate.DerivedStaticArray.Set` | language_itself/class_template.h:145-147 | assigning through it is defined only for `index < length` and changes only element `index` of the inherited `m_array` |
| `ClassTemplate.TestStaticArray` | language_itself/class_template.h:75-79 | `StaticArray<int, 12>` and `StaticArray<double, 4>` (the partial specialisation) start all zero |
| `OperatorOverload.Plus` | language_itself/operator_overload.cpp:29-33 | `Cents + Cents` holds the sum of both amounts, defined when it fits an `int` |
| `OperatorOverload.Minus` | language_itself/operator_overload.cpp:51-53 | `Cents - Cents` holds `c1 - c2` |
| `OperatorOverload.PlusInt` | language_itself/operator_overload.cpp:40-42 | `Cents + int` holds the amount plus the integer |
| `OperatorOverload.IntPlus` | language_itself/operator_overload.cpp:44-46 | `int + Cents` holds the integer plus the amount |
| `OperatorOverload.MinusUndoesPlus` | language_itself/operator_overload.cpp:29-53 | `(c1 + c2) - c2 == c1` |
| `OperatorOverload.PlusUndoesMinus` | language_itself/operator_overload.cpp:29-53 | `(c1 - c2) + c2 == c1` |
| `OperatorOverload.PlusCommutes` | language_itself/operator_overload.cpp:29-33 | `c1 + c2 == c2 + c1` |
| `OperatorOverload.MixedPlusCommutes` | language_itself/operator_overload.cpp:40-46 | `c + v == v + c`, and both equal `c + Cents(v)` |
| `OperatorOverload.Cents2.GetCents` | language_itself/operator_overload.cpp:62-64 | `getCents` returns the amount the object was constructed with |
| `OperatorOverload.Plus2` | language_itself/operator_overload.cpp:71-73 | `Cents2 + Cents2` has as `getCents` the sum of both operands' `getCents` |
| `OperatorOverload.Cents3.Plus` | language_itself/operator_overload.cpp:90-92 | the member `operator+` returns the left amount plus the right amount |
| `OperatorOverload.Cents3.GetCents` | language_itself/operator_overload.cpp:97-99 | `getCents` returns the amount the object was constructed with |
| `OperatorOverload.PlusOverloadsAgree` | language_itself/operator_overload.cpp:24-102 | the friend, normal-function and member overloads of `+` compute the same amount |
| `OperatorOverload.Cents4.ToInt` | language_itself/operator_overload.cpp:124-126 | `operator int` returns the constructor argument |
| `OperatorOverload.Cents4.GetCents` | language_itself/operator_overload.cpp:128-130 | `getCents` equals the `int` conversion |
| `OperatorOverload.Dollar.ToCents4` | language_itself/operator_overload.cpp:141-143 | converting `Dollar(d)` gives `d * 100` cents, defined when that fits an `int` |
| `OperatorOverload.Dollar.GetDollars` | language_itself/operator_overload.cpp:145-147 | `getDollars` returns the constructor argument |
| `OperatorOverload.ToCents4RoundTrip` | language_itself/operator_overload.cpp:141-143 | the converted cents are a multiple of 100, dividing by 100 gives the dollars back, and distinct dollars give distinct cents |
| `OperatorOverload.ConvertibleRange` | language_itself/operator_overload.cpp:141-143 | the conversion is free of overflow exactly for -21474836..21474836 dollars |
| `MultiDimArray.Fn8` | language_itself/main.cpp:4-18 | `fn8(a, count)` requires `count <= 2` (the first extent) and returns the sum of `a[i][j][k]` over `i < count`, `j < 3`, `k < 5`; 0 when `count == 0` |
| `MultiDimArray.RowSumBound` | language_itself/main.cpp:8-9 | `n` elements of a row sum to at most `n * 2^31` in magnitude |
| `MultiDimArray.SlabSumBound` | language_itself/main.cpp:7-10 | `m` rows of a slab sum to at most `5m * 2^31` in magnitude |
| `MultiDimArray.SlabsSumBound` | language_itself/main.cpp:6-11 | `c` slabs sum to at most `15c * 2^31` in magnitude |
| `MultiDimArray.PartialSumsExact` | language_itself/main.cpp:5-12 | every value the `double` accumulator takes is an integer of magnitude at most 2^53, so it equals the exact integer sum |
| `MultiDimArray.MainRowSum` | language_itself/main.cpp:21-32 | on `main`'s array, the first `n` elements of row `j` sum to `5nj + n(n+1)/2` |
| `MultiDimArray.MainInputSum` | language_itself/main.cpp:21-34 | on `main`'s array (two copies of 1..15) the sum of both slabs is 240 |
| `MultiDimArray.MainSum` | language_itself/main.cpp:20-36 | `main` builds the array and `fn8(arr, 2)` returns 240 |
| `Functions.Fn18` | language_itself/function.cpp:140-142 | `fn18(a, b)` is `a + b` |
| `Functions.Fn18IsAdd` | language_itself/function.cpp:140-142 | `fn18` agrees with `add<int, int>` |
| `Functions.Fn19` | language_itself/function.cpp:144-147 | the result is `str1` followed by `str2`, so its length is the sum of theirs |
| `Functions.Fn20` | language_itself/function.cpp:154-156 | the result aliases `a` or `b`, holds the larger value, and is `a` only when `a > b`, so ties return `b` |
| `Functions.Fn20Assign` | language_itself/function.cpp:154-160 | assigning through `fn20`'s reference changes the larger object (`b` on a tie) and nothing else |
| `Functions.Fn20ValueIsMax` | language_itself/function.cpp:154-156 | reading through `fn20`'s reference gives `max(a, b)` |
| `Functions.Fn23` | language_itself/function.cpp:175-178 | `fn23` returns 10 |
| `Functions.Fn24` | language_itself/function.cpp:180-182 | `fn24` returns a reference to its own argument |
| `Functions.Fn26` | language_itself/function.cpp:192-194 | `fn26` returns the pointer it was given |
| `Functions.AliasesReadTheArgument` | language_itself/function.cpp:180-194 | reading through `fn24`'s reference or `fn26`'s pointer gives the argument's value |
| `Functions.Fn28` | language_itself/function.cpp:206-208 | `fn28(int)` is the identity |
| `Functions.Fn29` | language_itself/function.cpp:224-242 | every `fn29` overload returns the pointee and only reads it |
| `Functions.Fn31` | language_itself/function.cpp:251-253 | `fn31` is the identity |
| `Functions.Decryptor.Call` | language_itself/function.cpp:274-277 | `Decryptor::operator()` returns its input unchanged |
| `Functions.TestFunctor` | language_itself/function.cpp:280-283 | calling the functor on `"Encrypted string"` gives that string |
| `Enums.ColorValue` | language_itself/enum.cpp:13-17 | each `Color` value is its enumerator's declaration index: RED=0, GREEN=1, BLUE=2 |
| `Enums.Color8Value` | language_itself/enum.cpp:22-26 | `Color8` has RED=0 and each next enumerator one more, all within `uint8_t` |
| `Enums.ImplicitNext` | language_itself/enum.cpp:24-25 | an enumerator without initialiser is one more than the previous one |
| `Enums.ShortName` | language_itself/enum.cpp:29-53 | every `Month` enumerator is, or is initialised from, one of the twelve short names |
| `Enums.MonthValue` | language_itself/enum.cpp:29-53 | every `Month` enumerator has a value in 1..12 |
| `Enums.ShortNamesInCalendarOrder` | language_itself/enum.cpp:29-53 | JAN..DEC have the values 1..12 in calendar order, so they are distinct |
| `Enums.AliasesEqualShortNames` | language_itself/enum.cpp:31-52 | each long name equals its short name (JANUARY == JAN), and MAY alone has no alias |
| `Enums.ValueGivesShortName` | language_itself/enum.cpp:29-53 | the value of an enumerator determines its short name |
| `Enums.MonthEqualityIsSameMonth` | language_itself/enum.cpp:28-53 | two enumerators compare equal exactly when they name the same month |
| `Enums.Fn1` | language_itself/enum.cpp:56-60 | after `using enum Month`, `JAN` denotes `Month::JAN`, whose value is 1 |
| `FunctionTemplate.Multiply` | language_itself/function_template.cc:10-13 | `multiply(a, b)` is `a * b`, defined when it fits an `int` |
| `FunctionTemplate.Add` | language_itself/function_template.cc:26-29 | `add<int, int>(a, b)` is the ordinary sum |
| `FunctionTemplate.MultiplyOneTwo` | language_itself/function_template.cc:11-16 | `multiply(1, 2)` is 2 |
| `FunctionTemplate.MultiplyCommutes` | language_itself/function_template.cc:11-13 | `multiply(a, b) == multiply(b, a)` for `int` |
| `FunctionTemplate.AddCommutes` | language_itself/function_template.cc:27-29 | `add(a, b) == add(b, a)` for `int` |

## Left out

- `Array<T>`'s destructor and its deleted copy constructor and copy assignment: freeing memory has no counterpart in Dafny, and a deleted member is a compile-time rule.
- `ClassTemplate.Array.constructor`: promises only the number of elements, because `new T[length]` leaves scalar elements indeterminate.
- A failed bounds `assert` aborts the program; the model makes the bound a precondition and does not model the abort, nor a build with `NDEBUG` where the check disappears.
- Value-initialisation of a generic `T` (`T m_array[size] {}`): Dafny has no generic zero, so `StaticArray` and `BaseStaticArray` take `T{}` as a constructor argument.
- A C++ `double` element is modelled by `real`; it is only stored and loaded, never computed with.
- Inheritance from `BaseStaticArray` is modelled by composition: `DerivedStaticArray` holds its base part as a field, and the derived `operator[]` indexes that part's `m_array`; the base `operator[]`, which the derived one hides, is reachable only through that field.
- The `sizeof`/`std::size` prints in `fn8` and `operator<<` for `Cents2`: console output.
- `fn8`'s `double` accumulator is an integer; `MultiDimArray.PartialSumsExact` proves this loses nothing.
- `fn28(double)`, `fn28(int, double)` and `fn28(double, int)`: floating-point conversions.
- `fn12` and `fn13` fall off the end without returning; `fn21` and `fn22` return a dangling reference or pointer: their results are undefined behaviour.
- `fn25` and `fn27`: the `const` versions of `fn24` and `fn26`; constness is a compile-time rule and the returned alias is the same.
- The four `fn29` overloads are one function: they differ only in `const`, and the source's own comment notes that two of them redeclare the other two.
- Declaration-only prototypes (`fn1` to `fn11`, `fn14` to `fn17`, `fn30`) have no body to model; the function pointers `ptr_to_some_fn` point to a function that does nothing.
- `multiply<double>` and `add<T1, T2>` with two different types: floating-point arithmetic and conversions.
- Signed `int` overflow is undefined behaviour; every operation that could overflow requires that it does not, rather than modelling a wrap-around.
- Dafny `==` on `Enums.Month` tells an alias from its short name (`JANUARY` and `JAN` are different datatype values); C++ equality on `Month` compares underlying values, which is `Enums.MonthValue` equality, and `Enums.MonthEqualityIsSameMonth` relates the two.
