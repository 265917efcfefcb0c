/** EqualsOverrideTheory and EqualsOverrideTheoriesSuccessiveAssertion: caller
    supplied (left, right, expected) triples, each checked by invoking
    left.Equals(right) SuccessiveCount times and requiring every answer to be
    the expected one.
 */
module EqualsOverrideTheories {
  import opened Wrappers
  import opened Clr
  import opened EqualsOverride
  import PV = ParameterValidation

  /** A theory: both objects are non-null once constructed. */
  datatype Theory = Theory(left: Obj, right: Obj, expectedResult: bool)

  /** The constructor checks left before right. */
  function NewTheory(left: Option<Obj>, right: Option<Obj>, expectedResult: bool): (r: Result<Theory, PV.GuardError>)
    ensures r.Success? <==> left.Some? && right.Some?
    ensures left.None? ==> r == Failure(PV.ArgumentNull("left"))
    ensures left.Some? && right.None? ==> r == Failure(PV.ArgumentNull("right"))
    ensures r.Success? ==>
      r.value.left == left.value && r.value.right == right.value && r.value.expectedResult == expectedResult
  {
    var leftCheck := PV.IsNotNull(left, "left");
    if leftCheck.Fail? then Failure(leftCheck.error)
    else
      var rightCheck := PV.IsNotNull(right, "right");
      if rightCheck.Fail? then Failure(rightCheck.error)
      else Success(Theory(left.value, right.value, expectedResult))
  }

  /** left.Equals(right) */
  function TheoryCall(t: Theory): Call {
    Call(Given(t.left), Given(t.right))
  }

  /** The theory's Left has exactly the reflected type of the method
      (GetType() compared for equality, so a subclass does not match). */
  predicate OwnsLeft(m: MethodDesc, t: Theory)
    requires IsEqualsMethod(m)
  {
    t.left.runtimeType == Owner(m)
  }

  /** The theory's Right is an instance of the parameter type; theories whose
      Right is not are skipped. */
  predicate AppliesTo(m: MethodDesc, assignable: Assignability, t: Theory)
    requires IsEqualsMethod(m)
  {
    IsInstanceOfType(assignable, ParameterType(m), Some(t.right))
  }

  /** How many of at most `count` successive answers, starting at invocation
      k, equal the expected result before the first one that does not; the
      All(...) that consumes them stops right after that one. */
  function MatchingRun(t: Theory, count: nat, k: nat, equals: EqualsOracle): (j: nat)
    ensures j <= count
    ensures forall n :: k <= n < k + j ==> equals(TheoryCall(t), n) == t.expectedResult
    ensures j < count ==> equals(TheoryCall(t), k + j) != t.expectedResult
    decreases count
  {
    if count == 0 then 0
    else if equals(TheoryCall(t), k) != t.expectedResult then 0
    else 1 + MatchingRun(t, count - 1, k + 1, equals)
  }

  /** The trace of checking theories[i..], the next Equals invocation being
      the k-th of this Verify call. */
  function TheoriesFrom(m: MethodDesc, count: int, theories: seq<Theory>, i: nat, k: nat,
                        assignable: Assignability, equals: EqualsOracle): (r: Run)
    requires IsEqualsMethod(m) && i <= |theories|
    ensures r.created == []
    ensures forall c :: c in r.calls ==> exists x :: i <= x < |theories| && c == TheoryCall(theories[x])
    decreases |theories| - i
  {
    if i == |theories| then Skipped
    else
      var t := theories[i];
      if !OwnsLeft(m, t) then Run(Fail(Violated(m, OwnerMismatch(i))), [], [])
      else if !AppliesTo(m, assignable, t) then TheoriesFrom(m, count, theories, i + 1, k, assignable, equals)
      else if count < 0 then Run(Fail(Guard(PV.ArgumentOutOfRange("count"))), [], [])
      else
        var j := MatchingRun(t, count, k, equals);
        if j < count then Run(Fail(Violated(m, TheoryMismatch(i))), [], Repeat(TheoryCall(t), j + 1))
        else
          var rest := TheoriesFrom(m, count, theories, i + 1, k + count, assignable, equals);
          Run(rest.outcome, [], Repeat(TheoryCall(t), count) + rest.calls)
  }

  /** The reference trace of the whole theories rule. */
  function TheoriesRun(m: MethodDesc, count: int, theories: seq<Theory>,
                       assignable: Assignability, equals: EqualsOracle): Run
    requires IsEqualsMethod(m)
  {
    TheoriesFrom(m, count, theories, 0, 0, assignable, equals)
  }

  /** Enumerable.Range(0, count).All(...) for one theory, the first answer
      being the k-th invocation: it stops at the first answer that departs
      from the expectation. */
  method AskTheory(t: Theory, count: nat, k: nat, equals: EqualsOracle) returns (allMatch: bool, asked: seq<Call>)
    ensures allMatch <==> MatchingRun(t, count, k, equals) == count
    ensures asked == Repeat(TheoryCall(t), if allMatch then count else MatchingRun(t, count, k, equals) + 1)
  {
    ghost var expectedRun := MatchingRun(t, count, k, equals);
    asked := [];
    var j := 0;
    allMatch := true;
    while j < count && allMatch
      invariant 0 <= j <= count
      invariant asked == Repeat(TheoryCall(t), j)
      invariant allMatch ==> j <= expectedRun
      invariant !allMatch ==> j == expectedRun + 1
    {
      var result := equals(TheoryCall(t), k + j);
      asked := asked + [TheoryCall(t)];
      if result != t.expectedResult {
        allMatch := false;
      }
      j := j + 1;
    }
  }

  /** One pass of the loop body, for theories[i] with k invocations made so
      far: it either ends the rule with `outcome` after the invocations
      `asked`, or lets the loop go on to the next theory. */
  method CheckTheory(m: MethodDesc, count: int, theories: seq<Theory>, i: nat, k: nat,
                     assignable: Assignability, equals: EqualsOracle)
    returns (stop: bool, outcome: Outcome<VerifyError>, asked: seq<Call>)
    requires IsEqualsMethod(m) && i < |theories|
    ensures stop ==> TheoriesFrom(m, count, theories, i, k, assignable, equals) == Run(outcome, [], asked)
    ensures !stop ==>
      var rest := TheoriesFrom(m, count, theories, i + 1, k + |asked|, assignable, equals);
      TheoriesFrom(m, count, theories, i, k, assignable, equals) == Run(rest.outcome, [], asked + rest.calls)
  {
    var t := theories[i];
    asked := [];
    stop, outcome := false, Pass;
    if t.left.runtimeType != Owner(m) {
      stop, outcome := true, Fail(Violated(m, OwnerMismatch(i)));
    } else if IsInstanceOfType(assignable, ParameterType(m), Some(t.right)) {
      if count < 0 {
        stop, outcome := true, Fail(Guard(PV.ArgumentOutOfRange("count")));
      } else {
        var allMatch;
        allMatch, asked := AskTheory(t, count, k, equals);
        if !allMatch {
          stop, outcome := true, Fail(Violated(m, TheoryMismatch(i)));
        }
      }
    } else {
      assert asked + TheoriesFrom(m, count, theories, i + 1, k, assignable, equals).calls
          == TheoriesFrom(m, count, theories, i + 1, k, assignable, equals).calls;
    }
  }

  /** VerifyEqualsMethod: the loop over the theories in order, with the
      short-circuiting All over the successive results inside it. */
  method VerifyTheories(m: MethodDesc, count: int, theories: seq<Theory>,
                        assignable: Assignability, equals: EqualsOracle)
    returns (outcome: Outcome<VerifyError>, calls: seq<Call>)
    requires IsEqualsMethod(m)
    ensures Run(outcome, [], calls) == TheoriesRun(m, count, theories, assignable, equals)
  {
    calls := [];
    var i := 0;
    while i < |theories|
      invariant 0 <= i <= |theories|
      invariant TheoriesRun(m, count, theories, assignable, equals).outcome
             == TheoriesFrom(m, count, theories, i, |calls|, assignable, equals).outcome
      invariant TheoriesRun(m, count, theories, assignable, equals).calls
             == calls + TheoriesFrom(m, count, theories, i, |calls|, assignable, equals).calls
    {
      var stop, result, asked := CheckTheory(m, count, theories, i, |calls|, assignable, equals);
      if stop {
        return result, calls + asked;
      }
      ghost var rest := TheoriesFrom(m, count, theories, i + 1, |calls| + |asked|, assignable, equals);
      assert (calls + asked) + rest.calls == calls + (asked + rest.calls);
      calls := calls + asked;
      i := i + 1;
    }
    assert calls + [] == calls;
    return Pass, calls;
  }

  // A characterisation of the reference trace that does not follow its recursion

  /** Invocations made before theory i when every earlier theory held: count
      of them for each earlier theory whose Right fits the parameter. */
  function Offset(m: MethodDesc, count: nat, theories: seq<Theory>, i: nat, assignable: Assignability): nat
    requires IsEqualsMethod(m) && i <= |theories|
  {
    if i == 0 then 0
    else Offset(m, count, theories, i - 1, assignable) + (if AppliesTo(m, assignable, theories[i - 1]) then count else 0)
  }

  /** Theory i holds: its Left has the owner type, and when its Right fits the
      parameter the count is a valid range length and every one of the count
      invocations it gets answers the expected result. */
  predicate TheoryHolds(m: MethodDesc, count: int, theories: seq<Theory>, i: nat,
                        assignable: Assignability, equals: EqualsOracle)
    requires IsEqualsMethod(m) && i < |theories|
  {
    var t := theories[i];
    && OwnsLeft(m, t)
    && (AppliesTo(m, assignable, t) ==>
          && count >= 0
          && var first := Offset(m, count as nat, theories, i, assignable);
             forall n :: first <= n < first + count ==> equals(TheoryCall(t), n) == t.expectedResult)
  }

  /** Theory x is the first one from i on that does not hold. */
  predicate FirstBroken(m: MethodDesc, count: int, theories: seq<Theory>, i: nat, x: int,
                        assignable: Assignability, equals: EqualsOracle)
    requires IsEqualsMethod(m)
  {
    && i <= x < |theories|
    && !TheoryHolds(m, count, theories, x, assignable, equals)
    && forall y :: i <= y < x ==> TheoryHolds(m, count, theories, y, assignable, equals)
  }

  /** One step of the reference trace: theory i either holds, and the trace
      continues with the next theory after its Offset(i + 1) - Offset(i)
      invocations, or it does not, and the trace fails there. */
  lemma TheoryStep(m: MethodDesc, count: int, theories: seq<Theory>, i: nat,
                   assignable: Assignability, equals: EqualsOracle)
    requires IsEqualsMethod(m) && i < |theories|
    requires count >= 0
    ensures var k := Offset(m, count, theories, i, assignable);
      var k' := Offset(m, count, theories, i + 1, assignable);
      var r := TheoriesFrom(m, count, theories, i, k, assignable, equals);
      var rest := TheoriesFrom(m, count, theories, i + 1, k', assignable, equals);
      && k <= k'
      && (TheoryHolds(m, count, theories, i, assignable, equals) ==>
            r.outcome == rest.outcome && |r.calls| == (k' - k) + |rest.calls|)
      && (!TheoryHolds(m, count, theories, i, assignable, equals) ==>
            r.outcome == Fail(Violated(m, if OwnsLeft(m, theories[i]) then TheoryMismatch(i) else OwnerMismatch(i))))
  {
    var t := theories[i];
    var k := Offset(m, count, theories, i, assignable);
    if OwnsLeft(m, t) && AppliesTo(m, assignable, t) {
      var j := MatchingRun(t, count, k, equals);
      if j < count {
        assert !TheoryHolds(m, count, theories, i, assignable, equals) by {
          assert equals(TheoryCall(t), k + j) != t.expectedResult;
        }
      } else {
        assert TheoryHolds(m, count, theories, i, assignable, equals);
      }
    }
  }

  /** The suffix lemmas behind TheoriesRunMeaning. Checking theories[i..]
      passes exactly when each of them holds, and then makes the invocations
      Offset counts for them. */
  lemma {:induction false} TheoriesFromPass(m: MethodDesc, count: int, theories: seq<Theory>, i: nat,
                                           assignable: Assignability, equals: EqualsOracle)
    requires IsEqualsMethod(m) && i <= |theories|
    requires count >= 0
    ensures var r := TheoriesFrom(m, count, theories, i, Offset(m, count, theories, i, assignable), assignable, equals);
      r.outcome.Pass? <==> forall x :: i <= x < |theories| ==> TheoryHolds(m, count, theories, x, assignable, equals)
    ensures var r := TheoriesFrom(m, count, theories, i, Offset(m, count, theories, i, assignable), assignable, equals);
      r.outcome.Pass? ==> |r.calls| == Offset(m, count, theories, |theories|, assignable) - Offset(m, count, theories, i, assignable)
    decreases |theories| - i
  {
    if i < |theories| {
      TheoryStep(m, count, theories, i, assignable, equals);
      TheoriesFromPass(m, count, theories, i + 1, assignable, equals);
    }
  }

  /** Checking theories[i..] fails at the first theory from i on that does not hold. */
  lemma {:induction false} TheoriesFromFail(m: MethodDesc, count: int, theories: seq<Theory>, i: nat,
                                           assignable: Assignability, equals: EqualsOracle)
    requires IsEqualsMethod(m) && i <= |theories|
    requires count >= 0
    ensures var r := TheoriesFrom(m, count, theories, i, Offset(m, count, theories, i, assignable), assignable, equals);
      r.outcome.Fail? ==>
        exists x :: (FirstBroken(m, count, theories, i, x, assignable, equals)
          && r.outcome.error == Violated(m, if OwnsLeft(m, theories[x]) then TheoryMismatch(x) else OwnerMismatch(x)))
    decreases |theories| - i
  {
    if i < |theories| {
      TheoryStep(m, count, theories, i, assignable, equals);
      if !TheoryHolds(m, count, theories, i, assignable, equals) {
        assert FirstBroken(m, count, theories, i, i, assignable, equals);
      } else {
        TheoriesFromFail(m, count, theories, i + 1, assignable, equals);
        var rest := TheoriesFrom(m, count, theories, i + 1, Offset(m, count, theories, i + 1, assignable), assignable, equals);
        if rest.outcome.Fail? {
          var x :| FirstBroken(m, count, theories, i + 1, x, assignable, equals)
            && rest.outcome.error == Violated(m, if OwnsLeft(m, theories[x]) then TheoryMismatch(x) else OwnerMismatch(x));
          assert FirstBroken(m, count, theories, i, x, assignable, equals);
        }
      }
    }
  }

  /** The rule passes exactly when every theory holds, making count
      invocations per fitting theory; it fails at the first theory that does
      not hold, reporting whether its Left or its answers were wrong. */
  lemma TheoriesRunMeaning(m: MethodDesc, count: int, theories: seq<Theory>,
                           assignable: Assignability, equals: EqualsOracle)
    requires IsEqualsMethod(m) && count >= 0
    ensures var r := TheoriesRun(m, count, theories, assignable, equals);
      && (r.outcome.Pass? <==> forall x :: 0 <= x < |theories| ==> TheoryHolds(m, count, theories, x, assignable, equals))
      && (r.outcome.Pass? ==> |r.calls| == Offset(m, count, theories, |theories|, assignable))
      && (r.outcome.Fail? ==>
            exists x :: (FirstBroken(m, count, theories, 0, x, assignable, equals)
              && r.outcome.error == Violated(m, if OwnsLeft(m, theories[x]) then TheoryMismatch(x) else OwnerMismatch(x))))
  {
    TheoriesFromPass(m, count, theories, 0, assignable, equals);
    TheoriesFromFail(m, count, theories, 0, assignable, equals);
  }

  /** A negative SuccessiveCount reaches Enumerable.Range, and so throws, as
      soon as some theory with the owner's Left fits the parameter. */
  lemma {:induction false} NegativeCountThrowsOnFittingTheory(m: MethodDesc, count: int, theories: seq<Theory>, i: nat, k: nat,
                                                              assignable: Assignability, equals: EqualsOracle)
    requires IsEqualsMethod(m) && count < 0 && i <= |theories|
    ensures var r := TheoriesFrom(m, count, theories, i, k, assignable, equals);
      && r.calls == []
      && (r.outcome.Pass? <==> forall x :: i <= x < |theories| ==> OwnsLeft(m, theories[x]) && !AppliesTo(m, assignable, theories[x]))
    decreases |theories| - i
  {
    if i < |theories| {
      NegativeCountThrowsOnFittingTheory(m, count, theories, i + 1, k, assignable, equals);
    }
  }

  /** With a count of zero every theory whose Left has the owner type holds,
      whatever Equals answers: All over an empty range is true. */
  lemma ZeroCountChecksOnlyOwners(m: MethodDesc, theories: seq<Theory>, assignable: Assignability, equals: EqualsOracle)
    requires IsEqualsMethod(m)
    ensures var r := TheoriesRun(m, 0, theories, assignable, equals);
      r.outcome.Pass? <==> forall x :: 0 <= x < |theories| ==> OwnsLeft(m, theories[x])
  {
    TheoriesRunMeaning(m, 0, theories, assignable, equals);
    forall x | 0 <= x < |theories|
      ensures TheoryHolds(m, 0, theories, x, assignable, equals) <==> OwnsLeft(m, theories[x])
    {
    }
  }
}
