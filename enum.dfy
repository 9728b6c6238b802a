/**
 * The scoped enumerations of the tutorial's enum chapter. An enumerator is a
 * name for a value of the underlying type; each enumeration is a datatype of
 * its enumerator names and a function giving each name's underlying value.
 * Two enumerators of a scoped enumeration compare equal exactly when their
 * values are equal, so an alias (`JANUARY = JAN`) is the same enumeration
 * value under another name.
 */
module Enums {

  import opened CppInt

  /** `enum class Color` (underlying type `int`). */
  datatype Color = RED | GREEN | BLUE

  /** The enumerators of `Color` in the order they are declared. */
  const COLOR_DECLARATIONS: seq<Color> := [Color.RED, Color.GREEN, Color.BLUE]

  /**
   * No enumerator of `Color` has an initialiser: the first is 0 and each
   * next one is one more, so a value is its enumerator's declaration index.
   */
  function ColorValue(c: Color): (v: int32)
    ensures 0 <= v < |COLOR_DECLARATIONS| as int32 && COLOR_DECLARATIONS[v] == c
  {
    match c
    case RED => 0
    case GREEN => 1
    case BLUE => 2
  }

  /** `enum class Color8 : uint8_t`. */
  datatype Color8 = RED | GREEN | BLUE

  /** The enumerators of `Color8` in the order they are declared. */
  const COLOR8_DECLARATIONS: seq<Color8> := [Color8.RED, Color8.GREEN, Color8.BLUE]

  /** `RED = 0` and then one more for each next enumerator. */
  function Color8Value(c: Color8): (v: uint8)
    ensures 0 <= v < |COLOR8_DECLARATIONS| as uint8 && COLOR8_DECLARATIONS[v] == c
  {
    match c
    case RED => 0
    case GREEN => ImplicitNext(0)
    case BLUE => ImplicitNext(ImplicitNext(0))
  }

  /** The value an enumerator without initialiser takes after `prev`. */
  function ImplicitNext(prev: uint8): (v: uint8)
    requires prev < 0xFF
    ensures v as int == prev as int + 1
  {
    prev + 1
  }

  /** `enum class Month : uint8_t`, with a long-name alias for all months but May. */
  datatype Month =
    | JAN | JANUARY | FEB | FEBRUARY | MAR | MARCH | APR | APRIL | MAY
    | JUN | JUNE | JUL | JULY | AUG | AUGUST | SEP | SEPTEMBER
    | OCT | OCTOBER | NOV | NOVEMBER | DEC | DECEMBER

  /** The short names, in calendar order. */
  const SHORT_NAMES: seq<Month> := [JAN, FEB, MAR, APR, MAY, JUN, JUL, AUG, SEP, OCT, NOV, DEC]

  /** The enumerator a long name is initialised from; a short name is its own. */
  function ShortName(m: Month): (s: Month)
    ensures s in SHORT_NAMES
  {
    match m
    case JANUARY => JAN
    case FEBRUARY => FEB
    case MARCH => MAR
    case APRIL => APR
    case JUNE => JUN
    case JULY => JUL
    case AUGUST => AUG
    case SEPTEMBER => SEP
    case OCTOBER => OCT
    case NOVEMBER => NOV
    case DECEMBER => DEC
    case _ => m
  }

  /**
   * The value of a short name is its explicit initialiser, 1 to 12; a long
   * name is initialised with its short name, so it has the same value.
   */
  function MonthValue(m: Month): (v: uint8)
    ensures 1 <= v <= 12
  {
    match m
    case JAN | JANUARY => 1
    case FEB | FEBRUARY => 2
    case MAR | MARCH => 3
    case APR | APRIL => 4
    case MAY => 5
    case JUN | JUNE => 6
    case JUL | JULY => 7
    case AUG | AUGUST => 8
    case SEP | SEPTEMBER => 9
    case OCT | OCTOBER => 10
    case NOV | NOVEMBER => 11
    case DEC | DECEMBER => 12
  }

  /** The short names are 1 to 12 in calendar order, hence all different. */
  lemma ShortNamesInCalendarOrder()
    ensures forall i :: 0 <= i < |SHORT_NAMES| ==> MonthValue(SHORT_NAMES[i]) as int == i + 1
    ensures forall i, j :: 0 <= i < j < |SHORT_NAMES| ==> MonthValue(SHORT_NAMES[i]) < MonthValue(SHORT_NAMES[j])
  {
  }

  /** Every long name equals its short name, and `MAY` is the only month without one. */
  lemma AliasesEqualShortNames(m: Month)
    ensures MonthValue(m) == MonthValue(ShortName(m))
    ensures ShortName(m) == MAY <==> m == MAY
  {
  }

  /** The value of an enumerator tells which short name it stands for. */
  lemma ValueGivesShortName(m: Month)
    ensures SHORT_NAMES[MonthValue(m) - 1] == ShortName(m)
  {
  }

  /** Two enumerators compare equal exactly when they name the same month. */
  lemma MonthEqualityIsSameMonth(m1: Month, m2: Month)
    ensures MonthValue(m1) == MonthValue(m2) <==> ShortName(m1) == ShortName(m2)
  {
    ValueGivesShortName(m1);
    ValueGivesShortName(m2);
    AliasesEqualShortNames(m1);
    AliasesEqualShortNames(m2);
  }

  /**
   * `fn1`: after `using enum Month`, the unqualified `JAN` is `Month::JAN`;
   * the local `m` it initialises holds the value 1.
   */
  function Fn1(): (m: Month)
    ensures m == JAN && MonthValue(m) == 1
  {
    JAN
  }
}
