/** The Equals-contract assertions run against EqualsOverrideAssertionVerifyHelper,
    a class whose Equals(helper) answers nullResult for a null argument,
    sameReferenceResult for itself, and otherwise the value of a result
    factory (the receiver's or the argument's).
 */
module EqualsOverrideCases {
  import opened Wrappers
  import opened Clr
  import opened EqualsOverride
  import opened EqualsOverrideRules
  import opened EqualsOverrideTheories
  import opened EqualsOverrideVerify

  const HelperType := ClassType("EqualsOverrideAssertionVerifyHelper")

  function HelperMethod(name: string, parameterType: ClrType): MethodDesc {
    MethodDesc(Some(HelperType), name, BoolType, [parameterType])
  }

  /** Equals(EqualsOverrideAssertionVerifyHelper), and Equals(object) which
      casts with `as`, so that a new object() arrives as null. The factory is
      read at each invocation index. */
  function HelperEquals(nullResult: bool, sameReferenceResult: bool, factory: nat -> bool): EqualsOracle {
    (c: Call, k: nat) =>
      if c.argument == NullValue || c.argument == NewObject then nullResult
      else if c.argument == c.receiver then sameReferenceResult
      else factory(k)
  }

  /** Exact type identity as the assignability relation. */
  const Exact: Assignability := (t: ClrType, u: ClrType) => t == u

  const Builder := Handle(1)

  /** The filter and the parameter classification on the helper's methods. */
  lemma FilterCases()
    ensures !IsEqualsMethod(HelperMethod("EqualsWrongName", ObjectType))
    ensures IsEqualsMethod(HelperMethod("Equals", ObjectType))
    ensures !IsEqualsMethod(MethodDesc(Some(HelperType), "GetHashCode", StructType("Int32"), []))
    ensures !IsEqualsMethod(MethodDesc(None, "Equals", BoolType, [ObjectType]))
    ensures IsObjectParameter(HelperMethod("Equals", ObjectType))
    ensures !IsObjectParameter(HelperMethod("Equals", HelperType))
    ensures !IsNullableParameter(HelperMethod("Equals", BoolType))
    ensures IsNullableParameter(HelperMethod("Equals", NullableType(BoolType)))
    ensures IsNullableParameter(HelperMethod("Equals", HelperType))
  {
  }

  /** A helper that is not equal to itself breaks the self rule; one that is
      passes after exactly one invocation. */
  lemma SelfCases()
    ensures var a := Assertion(Config(Builder, 3), SelfRule);
      Verify(a, Some(HelperMethod("Equals", HelperType)), Exact, HelperEquals(false, false, _ => true)).outcome
        == Fail(EqualsOverrideException("EqualsOverrideAssertionVerifyHelper", SelfNotEqual))
    ensures var a := Assertion(Config(Builder, 3), SelfRule);
      var run := Verify(a, Some(HelperMethod("Equals", HelperType)), Exact, HelperEquals(false, true, _ => true));
      run.outcome == Pass && |run.calls| == 1
    ensures var a := Assertion(Config(Builder, 3), SelfRule);
      Verify(a, Some(HelperMethod("EqualsWrongName", ObjectType)), Exact, HelperEquals(false, false, _ => true)) == Skipped
  {
  }

  /** The theories rule on the helper's typed Equals: a Left of the wrong type
      is rejected before any invocation, and a Right that does not fit is
      skipped without one. */
  lemma TheoriesOwnerAndFitCases()
    ensures var m := HelperMethod("Equals", HelperType);
      var t := Theory(Obj(1, BoolType), Obj(2, HelperType), false);
      var run := TheoriesRun(m, 3, [t], Exact, HelperEquals(false, true, _ => false));
      run.outcome == Fail(EqualsOverrideException("EqualsOverrideAssertionVerifyHelper", OwnerMismatch(0))) && run.calls == []
    ensures var m := HelperMethod("Equals", HelperType);
      var t := Theory(Obj(1, HelperType), Obj(2, BoolType), false);
      TheoriesRun(m, 3, [t], Exact, HelperEquals(false, true, _ => false)) == Skipped
  {
    var m := HelperMethod("Equals", HelperType);
    var t := Theory(Obj(1, HelperType), Obj(2, BoolType), false);
    assert !AppliesTo(m, Exact, t);
    assert TheoriesFrom(m, 3, [t], 1, 0, Exact, HelperEquals(false, true, _ => false)) == Skipped;
  }

  /** Answers true, false, true break the successive contract at the second
      invocation; consistent answers pass after three invocations. */
  lemma TheoriesSuccessiveCases()
    ensures var m := HelperMethod("Equals", HelperType);
      var t := Theory(Obj(1, HelperType), Obj(2, HelperType), true);
      var run := TheoriesRun(m, 3, [t], Exact, HelperEquals(false, false, k => k != 1));
      run.outcome == Fail(EqualsOverrideException("EqualsOverrideAssertionVerifyHelper", TheoryMismatch(0))) && |run.calls| == 2
    ensures var m := HelperMethod("Equals", HelperType);
      var t := Theory(Obj(1, HelperType), Obj(2, HelperType), true);
      var run := TheoriesRun(m, 3, [t], Exact, HelperEquals(false, false, _ => true));
      run.outcome == Pass && |run.calls| == 3
  {
    var m := HelperMethod("Equals", HelperType);
    var t := Theory(Obj(1, HelperType), Obj(2, HelperType), true);
    assert OwnsLeft(m, t) && AppliesTo(m, Exact, t);
    var wavering := HelperEquals(false, false, k => k != 1);
    assert wavering(TheoryCall(t), 0) && !wavering(TheoryCall(t), 1);
    assert MatchingRun(t, 3, 0, wavering) == 1;
    var steady := HelperEquals(false, false, _ => true);
    assert MatchingRun(t, 3, 0, steady) == 3 by {
      assert steady(TheoryCall(t), 0) && steady(TheoryCall(t), 1) && steady(TheoryCall(t), 2);
    }
    assert TheoriesFrom(m, 3, [t], 1, 3, Exact, steady) == Skipped;
  }
}
