/** The four rules that check an Equals method against specimens they create
    themselves: EqualsOverrideSelfAssertion, EqualsOverrideNullAssertion,
    EqualsOverrideNewObjectAssertion and EqualsOverrideOtherSuccessiveAssertion.
    Each is reached only through the Equals-method filter, hence the common
    precondition IsEqualsMethod(m).
 */
module EqualsOverrideRules {
  import opened Wrappers
  import opened Clr
  import opened EqualsOverride
  import PV = ParameterValidation

  /** x.Equals(x) must be true: one owner specimen, passed as receiver and as
      argument, one invocation. There is no parameter-type condition. */
  function VerifySelf(m: MethodDesc, equals: EqualsOracle): (run: Run)
    requires IsEqualsMethod(m)
    ensures run.created == [Owner(m)]
    ensures |run.calls| == 1 && run.calls[0].receiver == run.calls[0].argument == Specimen(0)
    ensures run.outcome.Fail? <==> !equals(run.calls[0], 0)
    ensures run.outcome.Fail? ==> run.outcome.error == Violated(m, SelfNotEqual)
  {
    var owner := Specimen(0);
    var call := Call(owner, owner);
    Run(if equals(call, 0) then Pass else Fail(Violated(m, SelfNotEqual)), [Owner(m)], [call])
  }

  /** x.Equals(null) must be false, checked only when the parameter can hold null. */
  function VerifyNull(m: MethodDesc, equals: EqualsOracle): (run: Run)
    requires IsEqualsMethod(m)
    ensures !IsNullableParameter(m) ==> run == Skipped
    ensures IsNullableParameter(m) ==>
      && run.created == [Owner(m)]
      && run.calls == [Call(Specimen(0), NullValue)]
      && (run.outcome.Fail? <==> equals(run.calls[0], 0))
    ensures run.outcome.Fail? ==> run.outcome.error == Violated(m, NullEqual)
  {
    if !IsNullableParameter(m) then Skipped
    else
      var call := Call(Specimen(0), NullValue);
      Run(if equals(call, 0) then Fail(Violated(m, NullEqual)) else Pass, [Owner(m)], [call])
  }

  /** x.Equals(new object()) must be false, checked only for an object parameter. */
  function VerifyNewObject(m: MethodDesc, equals: EqualsOracle): (run: Run)
    requires IsEqualsMethod(m)
    ensures !IsObjectParameter(m) ==> run == Skipped
    ensures IsObjectParameter(m) ==>
      && run.created == [Owner(m)]
      && run.calls == [Call(Specimen(0), NewObject)]
      && (run.outcome.Fail? <==> equals(run.calls[0], 0))
    ensures run.outcome.Fail? ==> run.outcome.error == Violated(m, NewObjectEqual)
  {
    if !IsObjectParameter(m) then Skipped
    else
      var call := Call(Specimen(0), NewObject);
      Run(if equals(call, 0) then Fail(Violated(m, NewObjectEqual)) else Pass, [Owner(m)], [call])
  }

  /** The number of distinct values among the results (Distinct().Count()). */
  function DistinctCount(results: seq<bool>): nat {
    |set b | b in results|
  }

  /** Exactly one distinct result means: at least one result, all equal to the first. */
  lemma DistinctCountIsOne(results: seq<bool>)
    ensures DistinctCount(results) == 1 <==> |results| > 0 && forall i :: 0 <= i < |results| ==> results[i] == results[0]
  {
    var s := set b | b in results;
    if |results| == 0 {
      assert s == {};
    } else if forall i :: 0 <= i < |results| ==> results[i] == results[0] {
      assert s == {results[0]};
    } else {
      var j :| 0 <= j < |results| && results[j] != results[0];
      assert results[j] in s && results[0] in s;
      assert s == {true, false} by {
        forall b: bool ensures b in s <==> b in {true, false} { }
      }
    }
  }

  /** owner.Equals(other): the first specimen invoked with the second. */
  const OtherCall := Call(Specimen(0), Specimen(1))

  /** x.Equals(y) must give the same answer on every one of `count` calls,
      checked only for a strongly typed (non-object) parameter. One owner and
      one "other" specimen are reused for every call; all results are
      collected before the distinct ones are counted, so there is no
      short-circuit. A negative count makes Enumerable.Range throw. */
  function VerifyOtherSuccessive(m: MethodDesc, count: int, equals: EqualsOracle): (run: Run)
    requires IsEqualsMethod(m)
    ensures IsObjectParameter(m) ==> run == Skipped
    ensures !IsObjectParameter(m) ==> run.created == [Owner(m), ParameterType(m)]
    ensures !IsObjectParameter(m) && count < 0 ==>
      run.outcome == Fail(Guard(PV.ArgumentOutOfRange("count"))) && run.calls == []
    ensures !IsObjectParameter(m) && count >= 0 ==>
      && |run.calls| == count
      && (forall i :: 0 <= i < count ==> run.calls[i] == OtherCall)
      && (run.outcome.Pass? <==>
            count > 0 && forall i :: 0 <= i < count ==> equals(OtherCall, i) == equals(OtherCall, 0))
    ensures run.outcome.Fail? && count >= 0 ==> run.outcome.error == Violated(m, ResultsDiffer)
  {
    if IsObjectParameter(m) then Skipped
    else
      var created := [Owner(m), ParameterType(m)];
      if count < 0 then Run(Fail(Guard(PV.ArgumentOutOfRange("count"))), created, [])
      else
        var call := OtherCall;
        var results := seq(count, i requires 0 <= i => equals(call, i));
        DistinctCountIsOne(results);
        assert forall i :: 0 <= i < count ==> results[i] == equals(call, i);
        Run(if DistinctCount(results) != 1 then Fail(Violated(m, ResultsDiffer)) else Pass,
            created, Repeat(call, count))
  }

  /** A rule applies when it creates a specimen. */
  predicate Applied(run: Run) {
    run.created != []
  }

  /** The new-object rule and the other-successive rule apply to complementary
      sets of Equals methods, and wherever the new-object rule applies the
      null rule applies too. */
  lemma ApplicabilityPartition(m: MethodDesc, count: int, equals: EqualsOracle)
    requires IsEqualsMethod(m)
    ensures Applied(VerifyNewObject(m, equals)) <==> !Applied(VerifyOtherSuccessive(m, count, equals))
    ensures Applied(VerifyNewObject(m, equals)) ==> Applied(VerifyNull(m, equals))
    ensures Applied(VerifySelf(m, equals))
  {
    ParameterClassification(m);
  }

  /** With a count of zero the other-successive rule sees no distinct result
      and fails, whatever Equals does. */
  lemma ZeroCountFailsOtherSuccessive(m: MethodDesc, equals: EqualsOracle)
    requires IsEqualsMethod(m) && !IsObjectParameter(m)
    ensures VerifyOtherSuccessive(m, 0, equals).outcome == Fail(Violated(m, ResultsDiffer))
    ensures VerifyOtherSuccessive(m, 0, equals).calls == []
  {
  }

  /** An Equals that always answers the same, true or false, passes the
      other-successive rule; one whose second answer differs from its first
      fails it after all `count` calls. */
  lemma ConstantAnswerPassesOtherSuccessive(m: MethodDesc, count: int, answer: bool)
    requires IsEqualsMethod(m) && !IsObjectParameter(m) && count > 0
    ensures VerifyOtherSuccessive(m, count, (c, k) => answer).outcome == Pass
  {
  }

  lemma ChangingAnswerFailsOtherSuccessive(m: MethodDesc, count: int, equals: EqualsOracle)
    requires IsEqualsMethod(m) && !IsObjectParameter(m) && count >= 2
    requires equals(OtherCall, 1) != equals(OtherCall, 0)
    ensures VerifyOtherSuccessive(m, count, equals).outcome == Fail(Violated(m, ResultsDiffer))
    ensures |VerifyOtherSuccessive(m, count, equals).calls| == count
  {
  }
}
