/** The truth table that pins down ParameterValidation, stated with the ordinal
    string comparer. Every row names the parameter "testParam" and checks both
    whether the guard passes and, when it fails, the exception it raises.
 */
module ParameterValidationCases {
  import opened Wrappers
  import opened ParameterValidation
  import OrdinalOrder

  const Param := "testParam"

  /** The ordinal comparer meets the premise of the ordering guards' contracts. */
  lemma OrdinalIsAntisymmetric()
    ensures Antisymmetric(OrdinalOrder.Compare)
  {
    forall x: string, y: string
      ensures OrdinalOrder.Compare(x, y) < 0 <==> OrdinalOrder.Compare(y, x) > 0
    {
      OrdinalOrder.CompareAntisymmetric(x, y);
    }
  }

  lemma NullAndEmptyTable()
    ensures IsNotNull<string>(None, Param) == Fail(ArgumentNull(Param))
    ensures IsNotNull(Some("value"), Param) == Pass
    ensures IsNotNull<int>(None, Param) == Fail(ArgumentNull(Param))
    ensures IsNotNull(Some(5), Param) == Pass
    ensures IsNotEmpty(Some(""), Param) == Fail(Argument(Param))
    ensures IsNotEmpty(Some("value"), Param) == Pass
    ensures IsNotEmpty(None, Param) == Pass
  {
  }

  lemma GreaterThanTable()
    ensures IsGreaterThan(Some("t"), Some("t"), Param, OrdinalOrder.Compare) == Fail(ArgumentOutOfRange(Param))
    ensures IsGreaterThan(Some("r"), Some("t"), Param, OrdinalOrder.Compare) == Fail(ArgumentOutOfRange(Param))
    ensures IsGreaterThan(Some("s"), Some("t"), Param, OrdinalOrder.Compare) == Fail(ArgumentOutOfRange(Param))
    ensures IsGreaterThan(None, Some("t"), Param, OrdinalOrder.Compare) == Fail(ArgumentOutOfRange(Param))
    ensures IsGreaterThan(None, None, Param, OrdinalOrder.Compare) == Fail(ArgumentOutOfRange(Param))
    ensures IsGreaterThan(Some("u"), Some("t"), Param, OrdinalOrder.Compare) == Pass
    ensures IsGreaterThan(Some("v"), Some("t"), Param, OrdinalOrder.Compare) == Pass
    ensures IsGreaterThan(Some("u"), None, Param, OrdinalOrder.Compare) == Pass
  {
  }

  lemma LessThanTable()
    ensures IsLessThan(Some("t"), Some("t"), Param, OrdinalOrder.Compare) == Fail(ArgumentOutOfRange(Param))
    ensures IsLessThan(Some("u"), Some("t"), Param, OrdinalOrder.Compare) == Fail(ArgumentOutOfRange(Param))
    ensures IsLessThan(Some("t"), None, Param, OrdinalOrder.Compare) == Fail(ArgumentOutOfRange(Param))
    ensures IsLessThan(None, None, Param, OrdinalOrder.Compare) == Fail(ArgumentOutOfRange(Param))
    ensures IsLessThan(Some("s"), Some("t"), Param, OrdinalOrder.Compare) == Pass
    ensures IsLessThan(None, Some("t"), Param, OrdinalOrder.Compare) == Pass
  {
  }

  lemma GreaterThanOrEqualToTable()
    ensures IsGreaterThanOrEqualTo(Some("s"), Some("t"), Param, OrdinalOrder.Compare) == Fail(ArgumentOutOfRange(Param))
    ensures IsGreaterThanOrEqualTo(None, Some("t"), Param, OrdinalOrder.Compare) == Fail(ArgumentOutOfRange(Param))
    ensures IsGreaterThanOrEqualTo(Some("t"), Some("t"), Param, OrdinalOrder.Compare) == Pass
    ensures IsGreaterThanOrEqualTo(Some("u"), Some("t"), Param, OrdinalOrder.Compare) == Pass
    ensures IsGreaterThanOrEqualTo(Some("u"), None, Param, OrdinalOrder.Compare) == Pass
    ensures IsGreaterThanOrEqualTo(None, None, Param, OrdinalOrder.Compare) == Pass
  {
  }

  lemma LessThanOrEqualToTable()
    ensures IsLessThanOrEqualTo(Some("u"), Some("t"), Param, OrdinalOrder.Compare) == Fail(ArgumentOutOfRange(Param))
    ensures IsLessThanOrEqualTo(Some("u"), None, Param, OrdinalOrder.Compare) == Fail(ArgumentOutOfRange(Param))
    ensures IsLessThanOrEqualTo(Some("s"), Some("t"), Param, OrdinalOrder.Compare) == Pass
    ensures IsLessThanOrEqualTo(Some("t"), Some("t"), Param, OrdinalOrder.Compare) == Pass
    ensures IsLessThanOrEqualTo(None, Some("t"), Param, OrdinalOrder.Compare) == Pass
    ensures IsLessThanOrEqualTo(None, None, Param, OrdinalOrder.Compare) == Pass
  {
  }

  lemma BetweenTable()
    ensures IsBetween(Some("s"), Some("s"), Some("u"), Param, OrdinalOrder.Compare) == Fail(ArgumentOutOfRange(Param))
    ensures IsBetween(Some("u"), Some("s"), Some("u"), Param, OrdinalOrder.Compare) == Fail(ArgumentOutOfRange(Param))
    ensures IsBetween(Some("r"), Some("s"), Some("u"), Param, OrdinalOrder.Compare) == Fail(ArgumentOutOfRange(Param))
    ensures IsBetween(Some("v"), Some("s"), Some("u"), Param, OrdinalOrder.Compare) == Fail(ArgumentOutOfRange(Param))
    ensures IsBetween(None, Some("s"), Some("u"), Param, OrdinalOrder.Compare) == Fail(ArgumentOutOfRange(Param))
    ensures IsBetween(None, None, None, Param, OrdinalOrder.Compare) == Fail(ArgumentOutOfRange(Param))
    ensures IsBetween(Some("t"), Some("s"), Some("u"), Param, OrdinalOrder.Compare) == Pass
  {
  }

  lemma BetweenInclusiveTable()
    ensures IsBetweenInclusive(Some("r"), Some("s"), Some("u"), Param, OrdinalOrder.Compare) == Fail(ArgumentOutOfRange(Param))
    ensures IsBetweenInclusive(Some("v"), Some("s"), Some("u"), Param, OrdinalOrder.Compare) == Fail(ArgumentOutOfRange(Param))
    ensures IsBetweenInclusive(None, Some("s"), Some("u"), Param, OrdinalOrder.Compare) == Fail(ArgumentOutOfRange(Param))
    ensures IsBetweenInclusive(Some("t"), Some("t"), None, Param, OrdinalOrder.Compare) == Fail(ArgumentOutOfRange(Param))
    ensures IsBetweenInclusive(Some("s"), Some("s"), Some("u"), Param, OrdinalOrder.Compare) == Pass
    ensures IsBetweenInclusive(Some("t"), Some("s"), Some("u"), Param, OrdinalOrder.Compare) == Pass
    ensures IsBetweenInclusive(Some("u"), Some("s"), Some("u"), Param, OrdinalOrder.Compare) == Pass
    ensures IsBetweenInclusive(Some("t"), None, Some("t"), Param, OrdinalOrder.Compare) == Pass
    ensures IsBetweenInclusive(None, None, None, Param, OrdinalOrder.Compare) == Pass
  {
  }

  lemma BooleanTable()
    ensures IsTrue(false, Param) == Fail(Argument(Param))
    ensures IsTrue(true, Param) == Pass
    ensures IsFalse(true, Param) == Fail(Argument(Param))
    ensures IsFalse(false, Param) == Pass
  {
  }
}
