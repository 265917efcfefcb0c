/** The guard clauses of ParameterValidation. Every guard is a total function
    that either passes or fails with a classified error naming the parameter.
    A possibly-null value is an Option; the ordering guards compare under the
    supplied comparer lifted so that null equals null and is below every
    non-null value, as both the default and the ordinal string comparer do.
 */
module ParameterValidation {
  import opened Wrappers

  /** ArgumentNullException, ArgumentException and ArgumentOutOfRangeException,
      each carrying its ParamName. */
  datatype GuardError =
    | ArgumentNull(paramName: string)
    | Argument(paramName: string)
    | ArgumentOutOfRange(paramName: string)

  type Check = Outcome<GuardError>

  /** IComparer<T>.Compare applied to values that may be null. */
  function NullLeastCompare<T>(cmp: (T, T) -> int, a: Option<T>, b: Option<T>): int {
    match (a, b)
    case (None, None) => 0
    case (None, Some(_)) => -1
    case (Some(_), None) => 1
    case (Some(x), Some(y)) => cmp(x, y)
  }

  /** a lies strictly below b in the null-least order: null is below every
      non-null value, and two non-null values are ordered by the comparer. */
  predicate Below<T>(cmp: (T, T) -> int, a: Option<T>, b: Option<T>) {
    match (a, b)
    case (None, Some(_)) => true
    case (Some(x), Some(y)) => cmp(x, y) < 0
    case _ => false
  }

  /** A comparer whose sign flips when its arguments are swapped. */
  ghost predicate Antisymmetric<T(!new)>(cmp: (T, T) -> int) {
    forall x, y :: cmp(x, y) < 0 <==> cmp(y, x) > 0
  }

  function IsNotNull<T>(value: Option<T>, paramName: string): (r: Check)
    ensures r.Pass? <==> value.Some?
    ensures r.Fail? ==> r.error == ArgumentNull(paramName)
  {
    if value.None? then Fail(ArgumentNull(paramName)) else Pass
  }

  /** Fails only for the empty string: null is allowed. */
  function IsNotEmpty(value: Option<string>, paramName: string): (r: Check)
    ensures r.Fail? <==> value == Some("")
    ensures r.Fail? ==> r.error == Argument(paramName)
  {
    if value.Some? && |value.value| == 0 then Fail(Argument(paramName)) else Pass
  }

  function IsGreaterThan<T(!new)>(value: Option<T>, bound: Option<T>, paramName: string, cmp: (T, T) -> int): (r: Check)
    ensures Antisymmetric(cmp) ==> (r.Pass? <==> Below(cmp, bound, value))
    ensures r.Fail? ==> r.error == ArgumentOutOfRange(paramName)
  {
    if NullLeastCompare(cmp, value, bound) <= 0 then Fail(ArgumentOutOfRange(paramName)) else Pass
  }

  function IsLessThan<T>(value: Option<T>, bound: Option<T>, paramName: string, cmp: (T, T) -> int): (r: Check)
    ensures r.Pass? <==> Below(cmp, value, bound)
    ensures r.Fail? ==> r.error == ArgumentOutOfRange(paramName)
  {
    if NullLeastCompare(cmp, value, bound) >= 0 then Fail(ArgumentOutOfRange(paramName)) else Pass
  }

  function IsGreaterThanOrEqualTo<T>(value: Option<T>, bound: Option<T>, paramName: string, cmp: (T, T) -> int): (r: Check)
    ensures r.Pass? <==> !Below(cmp, value, bound)
    ensures r.Fail? ==> r.error == ArgumentOutOfRange(paramName)
  {
    if NullLeastCompare(cmp, value, bound) < 0 then Fail(ArgumentOutOfRange(paramName)) else Pass
  }

  function IsLessThanOrEqualTo<T(!new)>(value: Option<T>, bound: Option<T>, paramName: string, cmp: (T, T) -> int): (r: Check)
    ensures Antisymmetric(cmp) ==> (r.Pass? <==> !Below(cmp, bound, value))
    ensures r.Fail? ==> r.error == ArgumentOutOfRange(paramName)
  {
    if NullLeastCompare(cmp, value, bound) > 0 then Fail(ArgumentOutOfRange(paramName)) else Pass
  }

  /** Exclusive range: both boundaries fail. */
  function IsBetween<T(!new)>(value: Option<T>, min: Option<T>, max: Option<T>, paramName: string, cmp: (T, T) -> int): (r: Check)
    ensures Antisymmetric(cmp) ==> (r.Pass? <==> Below(cmp, min, value) && Below(cmp, value, max))
    ensures r.Fail? ==> r.error == ArgumentOutOfRange(paramName)
  {
    if NullLeastCompare(cmp, value, min) <= 0 || NullLeastCompare(cmp, value, max) >= 0 then
      Fail(ArgumentOutOfRange(paramName))
    else
      Pass
  }

  /** Inclusive range: both boundaries pass. */
  function IsBetweenInclusive<T(!new)>(value: Option<T>, min: Option<T>, max: Option<T>, paramName: string, cmp: (T, T) -> int): (r: Check)
    ensures Antisymmetric(cmp) ==> (r.Pass? <==> !Below(cmp, value, min) && !Below(cmp, max, value))
    ensures r.Fail? ==> r.error == ArgumentOutOfRange(paramName)
  {
    if NullLeastCompare(cmp, value, min) < 0 || NullLeastCompare(cmp, value, max) > 0 then
      Fail(ArgumentOutOfRange(paramName))
    else
      Pass
  }

  function IsTrue(condition: bool, paramName: string): (r: Check)
    ensures r.Pass? <==> condition
    ensures r.Fail? ==> r.error == Argument(paramName)
  {
    if !condition then Fail(Argument(paramName)) else Pass
  }

  function IsFalse(condition: bool, paramName: string): (r: Check)
    ensures r.Pass? <==> !condition
    ensures r.Fail? ==> r.error == Argument(paramName)
  {
    if condition then Fail(Argument(paramName)) else Pass
  }

  // Relations between the guards

  /** IsGreaterThan fails on exactly the pairs IsLessThanOrEqualTo accepts, and
      IsLessThan on exactly the pairs IsGreaterThanOrEqualTo accepts. */
  lemma StrictGuardsComplementNonStrict<T(!new)>(value: Option<T>, bound: Option<T>, paramName: string, cmp: (T, T) -> int)
    ensures IsGreaterThan(value, bound, paramName, cmp).Fail? <==> IsLessThanOrEqualTo(value, bound, paramName, cmp).Pass?
    ensures IsLessThan(value, bound, paramName, cmp).Fail? <==> IsGreaterThanOrEqualTo(value, bound, paramName, cmp).Pass?
  {
  }

  /** IsBetween is IsGreaterThan the minimum and IsLessThan the maximum, with the
      same error; IsBetweenInclusive is the same with the non-strict guards. */
  lemma RangeGuardsAreBoundGuards<T(!new)>(value: Option<T>, min: Option<T>, max: Option<T>, paramName: string, cmp: (T, T) -> int)
    ensures IsBetween(value, min, max, paramName, cmp).Pass?
        <==> IsGreaterThan(value, min, paramName, cmp).Pass? && IsLessThan(value, max, paramName, cmp).Pass?
    ensures IsBetweenInclusive(value, min, max, paramName, cmp).Pass?
        <==> IsGreaterThanOrEqualTo(value, min, paramName, cmp).Pass? && IsLessThanOrEqualTo(value, max, paramName, cmp).Pass?
  {
  }

  /** Every value IsBetween accepts is also accepted by IsBetweenInclusive. */
  lemma ExclusiveRangeWithinInclusive<T(!new)>(value: Option<T>, min: Option<T>, max: Option<T>, paramName: string, cmp: (T, T) -> int)
    requires IsBetween(value, min, max, paramName, cmp).Pass?
    ensures IsBetweenInclusive(value, min, max, paramName, cmp).Pass?
  {
  }

  /** Null is the least element: nothing is below it, so a null lower bound is
      always met, a null upper bound is never met strictly, and a null value
      meets only a null upper bound. */
  lemma NullIsLeast<T(!new)>(value: Option<T>, paramName: string, cmp: (T, T) -> int)
    requires Antisymmetric(cmp)
    ensures IsGreaterThanOrEqualTo(value, None, paramName, cmp).Pass?
    ensures IsLessThan(value, None, paramName, cmp).Fail?
    ensures IsLessThanOrEqualTo(None, value, paramName, cmp).Pass?
    ensures IsGreaterThan(None, value, paramName, cmp).Fail?
    ensures IsLessThanOrEqualTo(value, None, paramName, cmp).Pass? <==> value.None?
  {
  }

  /** With a null maximum the exclusive range is empty, and the inclusive
      range holds only null. */
  lemma NullMaximum<T(!new)>(value: Option<T>, min: Option<T>, paramName: string, cmp: (T, T) -> int)
    requires Antisymmetric(cmp)
    ensures IsBetween(value, min, None, paramName, cmp).Fail?
    ensures IsBetweenInclusive(value, min, None, paramName, cmp).Pass? <==> value.None? && min.None?
  {
  }
}
