/** The concrete Equals-contract assertions and their common entry point,
    EqualsOverrideAssertion.Verify: reject a null method, ignore anything that
    is not an Equals method, and hand an Equals method to the rule.
 */
module EqualsOverrideVerify {
  import opened Wrappers
  import opened Clr
  import opened EqualsOverride
  import opened EqualsOverrideRules
  import opened EqualsOverrideTheories
  import PV = ParameterValidation

  /** Which concrete assertion this is. The theories assertion built through
      its one-argument constructor has no theory array (None). */
  datatype Rule =
    | SelfRule
    | NullRule
    | NewObjectRule
    | OtherSuccessiveRule
    | TheoriesRule(theories: Option<seq<Theory>>)

  datatype Assertion = Assertion(config: Config, rule: Rule)

  /** The one-argument constructor every concrete assertion has: only the
      builder is checked, and a theories assertion gets no theory array. */
  function NewAssertion(specimenBuilder: Option<Handle>, rule: Rule): (r: Result<Assertion, PV.GuardError>)
    requires rule.TheoriesRule? ==> rule.theories.None?
    ensures r.Success? <==> specimenBuilder.Some?
    ensures r.Failure? ==> r.error == PV.ArgumentNull("specimenBuilder")
    ensures r.Success? ==> r.value == Assertion(Config(specimenBuilder.value, DefaultSuccessiveCount), rule)
  {
    var config := NewConfig(specimenBuilder);
    if config.Failure? then Failure(config.error) else Success(Assertion(config.value, rule))
  }

  /** The theories constructor: the base constructor checks the builder
      first, then the array itself is checked for null. */
  function NewTheoriesAssertion(specimenBuilder: Option<Handle>, theories: Option<seq<Theory>>): (r: Result<Assertion, PV.GuardError>)
    ensures r.Success? <==> specimenBuilder.Some? && theories.Some?
    ensures specimenBuilder.None? ==> r == Failure(PV.ArgumentNull("specimenBuilder"))
    ensures specimenBuilder.Some? && theories.None? ==> r == Failure(PV.ArgumentNull("equalsOverrideTheories"))
    ensures r.Success? ==> r.value == Assertion(Config(specimenBuilder.value, DefaultSuccessiveCount), TheoriesRule(theories))
  {
    var config := NewConfig(specimenBuilder);
    if config.Failure? then Failure(config.error)
    else
      var check := PV.IsNotNull(theories, "equalsOverrideTheories");
      if check.Fail? then Failure(check.error)
      else Success(Assertion(config.value, TheoriesRule(theories)))
  }

  /** VerifyEqualsMethod of the assertion's rule. */
  function VerifyEqualsMethod(a: Assertion, m: MethodDesc, assignable: Assignability, equals: EqualsOracle): (run: Run)
    requires IsEqualsMethod(m)
    ensures a.rule == SelfRule ==> run == VerifySelf(m, equals)
    ensures a.rule == NullRule ==> run == VerifyNull(m, equals)
    ensures a.rule == NewObjectRule ==> run == VerifyNewObject(m, equals)
    ensures a.rule == OtherSuccessiveRule ==> run == VerifyOtherSuccessive(m, a.config.successiveCount, equals)
    ensures a.rule == TheoriesRule(None) ==> run == Run(Fail(NullReference), [], [])
    ensures a.rule.TheoriesRule? && a.rule.theories.Some? ==>
      run == TheoriesRun(m, a.config.successiveCount, a.rule.theories.value, assignable, equals)
  {
    match a.rule
    case SelfRule => VerifySelf(m, equals)
    case NullRule => VerifyNull(m, equals)
    case NewObjectRule => VerifyNewObject(m, equals)
    case OtherSuccessiveRule => VerifyOtherSuccessive(m, a.config.successiveCount, equals)
    case TheoriesRule(theories) =>
      if theories.None? then Run(Fail(NullReference), [], [])
      else TheoriesRun(m, a.config.successiveCount, theories.value, assignable, equals)
  }

  /** Verify: a null method is an ArgumentNullException; a method that is not
      an Equals method is ignored; an Equals method is checked by the rule. */
  function Verify(a: Assertion, m: Option<MethodDesc>, assignable: Assignability, equals: EqualsOracle): (run: Run)
    ensures m.None? ==> run == Run(Fail(Guard(PV.ArgumentNull("methodInfo"))), [], [])
    ensures m.Some? && !IsEqualsMethod(m.value) ==> run == Skipped
    ensures m.Some? && IsEqualsMethod(m.value) ==> run == VerifyEqualsMethod(a, m.value, assignable, equals)
  {
    var check := PV.IsNotNull(m, "methodInfo");
    if check.Fail? then Run(Fail(Guard(check.error)), [], [])
    else if !IsEqualsMethod(m.value) then Skipped
    else VerifyEqualsMethod(a, m.value, assignable, equals)
  }

  /** Every rule's failure on an Equals method names the reflected type, except
      for the guard and null-reference failures that come from the
      configuration rather than from Equals. */
  lemma FailuresNameTheOwner(a: Assertion, m: MethodDesc, assignable: Assignability, equals: EqualsOracle)
    requires IsEqualsMethod(m) && a.config.successiveCount >= 0 && a.rule != TheoriesRule(None)
    ensures var run := VerifyEqualsMethod(a, m, assignable, equals);
      run.outcome.Fail? ==> run.outcome.error.EqualsOverrideException? && run.outcome.error.typeName == Name(Owner(m))
  {
    if a.rule.TheoriesRule? {
      TheoriesRunMeaning(m, a.config.successiveCount, a.rule.theories.value, assignable, equals);
    }
  }

  /** A rule invokes Equals only on the method it was given and only when that
      method is an Equals method: for anything else no specimen is created
      and no invocation is made. */
  lemma OnlyEqualsMethodsAreInvoked(a: Assertion, m: Option<MethodDesc>, assignable: Assignability, equals: EqualsOracle)
    requires (Verify(a, m, assignable, equals).calls != [] || Verify(a, m, assignable, equals).created != [])
    ensures m.Some? && IsEqualsMethod(m.value)
  {
  }
}
