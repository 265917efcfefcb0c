# NatsnudaLibrary test extensions, modelled in Dafny

This project models the verification core of NatsnudaLibrary. That core is a
set of AutoFixture idiomatic assertions and guard-clause behaviour
expectations, together with the `ParameterValidation` guard clauses they are
built on.

- **Guard clauses** (`parameter_validation.dfy`): `IsNotNull`, `IsNotEmpty`,
  the ordering guards, the range guards, `IsTrue` and `IsFalse`. Each is a
  total function that either passes or fails with an `ArgumentNull`,
  `Argument` or `ArgumentOutOfRange` error naming the parameter.
  - A possibly-null value is an `Option`.
  - The ordering guards compare through a supplied comparer. Null equals
    null and is below every non-null value.
  - `ordinal_order.dfy` defines the ordinal string comparer and proves that
    its sign is lexicographic precedence.
  - `parameter_validation_cases.dfy` restates every row of the unit-test
    table as a lemma.
- **Equals-contract assertions** (`equals_override*.dfy`):
  - the Equals-method filter and the classification of the parameter type;
  - the self, null, new-object and other-successive rules;
  - the caller-supplied theories rule;
  - the `Verify` entry point.

  Calling Equals is replaced by an oracle. It answers the k-th invocation of
  one `Verify` call. A rule's result is a `Run`: its outcome, the types of
  the specimens it created, and the invocations it made, in order.
- **Behaviour expectations** (`behavior_expectations.dfy`):
  - `ExceptionBehaviorExpectation<T>`: every value must make the command
    throw exactly `T`.
  - `ParameterNullReferenceBehaviorExpectation`: null must make the command
    throw an `ArgumentNullException` or a subclass of it.

  Executing a command is replaced by an executor that reports what the n-th
  execution did.
- **Parameter-targeted specimens** (`parameter_specimens.dfy`):
  - `ParameterSpecimenBuilder.Create`, the four-way match;
  - `ParameterCustomization.Customize`, which appends one builder;
  - `ParameterAttribute.GetCustomization`;
  - an end-to-end lemma from attribute to specimen.
- **PropertyChanged assertion** (`property_changed.dfy`): the draw loop,
  bounded by 100 retries, for a value unlike the initial one. Then attach,
  set and detach, where the detach also happens when the setter throws.
  Then the verdict on the names that were raised.

Reflection facts become data. A method is a `MethodDesc`, a property a
`PropertyDesc`, a parameter a `ParameterInfo`. The relation "an instance of
type B can be stored in a variable of type A" is a parameter,
`Assignability`.

The guards are specified by their unit tests, which pin down every
boundary.

## Model

| member | source | states |
|---|---|---|
| OrdinalOrder.CompareMeansPrecedes | test/unit/NatsnudasoftTests/NatsnudaLibrary/ParameterValidationTests.cs:512-515 | the ordinal comparer is negative exactly when the first string lexicographically precedes the second, positive exactly when the second precedes, zero exactly when they are equal |
| OrdinalOrder.CompareAntisymmetric | test/unit/NatsnudasoftTests/NatsnudaLibrary/ParameterValidationTests.cs:512-515 | swapping the arguments of the ordinal comparer flips the sign |
| ParameterValidation.IsNotNull | test/unit/NatsnudasoftTests/NatsnudaLibrary/ParameterValidationTests.cs:26-70 | passes exactly for a non-null value, reference or nullable; otherwise ArgumentNullException naming the parameter |
| ParameterValidation.IsNotEmpty | test/unit/NatsnudasoftTests/NatsnudaLibrary/ParameterValidationTests.cs:72-94 | fails exactly for the empty string (null passes), with ArgumentException |
| ParameterValidation.IsGreaterThan | test/unit/NatsnudasoftTests/NatsnudaLibrary/ParameterValidationTests.cs:96-153 | for a sign-consistent comparer, passes exactly when the bound lies strictly below the value in the null-least order; else ArgumentOutOfRangeException |
| ParameterValidation.IsLessThan | test/unit/NatsnudasoftTests/NatsnudaLibrary/ParameterValidationTests.cs:155-212 | passes exactly when the value lies strictly below the bound; else ArgumentOutOfRangeException |
| ParameterValidation.IsGreaterThanOrEqualTo | test/unit/NatsnudasoftTests/NatsnudaLibrary/ParameterValidationTests.cs:214-273 | passes exactly when the value is not below the bound; else ArgumentOutOfRangeException |
| ParameterValidation.IsLessThanOrEqualTo | test/unit/NatsnudasoftTests/NatsnudaLibrary/ParameterValidationTests.cs:274-330 | for a sign-consistent comparer, passes exactly when the bound is not below the value; else ArgumentOutOfRangeException |
| ParameterValidation.IsBetween | test/unit/NatsnudasoftTests/NatsnudaLibrary/ParameterValidationTests.cs:332-393 | passes exactly when min < value < max (both ends excluded); else ArgumentOutOfRangeException |
| ParameterValidation.IsBetweenInclusive | test/unit/NatsnudasoftTests/NatsnudaLibrary/ParameterValidationTests.cs:395-460 | passes exactly when min <= value <= max (both ends included); else ArgumentOutOfRangeException |
| ParameterValidation.IsTrue | test/unit/NatsnudasoftTests/NatsnudaLibrary/ParameterValidationTests.cs:462-485 | passes exactly for true; false gives ArgumentException |
| ParameterValidation.IsFalse | test/unit/NatsnudasoftTests/NatsnudaLibrary/ParameterValidationTests.cs:487-508 | passes exactly for false; true gives ArgumentException |
| ParameterValidation.StrictGuardsComplementNonStrict | test/unit/NatsnudasoftTests/NatsnudaLibrary/ParameterValidationTests.cs:96-330 | IsGreaterThan rejects exactly what IsLessThanOrEqualTo accepts, and IsLessThan exactly what IsGreaterThanOrEqualTo accepts |
| ParameterValidation.RangeGuardsAreBoundGuards | test/unit/NatsnudasoftTests/NatsnudaLibrary/ParameterValidationTests.cs:332-460 | the exclusive range is IsGreaterThan(min) and IsLessThan(max); the inclusive range is the two non-strict guards |
| ParameterValidation.ExclusiveRangeWithinInclusive | test/unit/NatsnudasoftTests/NatsnudaLibrary/ParameterValidationTests.cs:332-460 | every value IsBetween accepts, IsBetweenInclusive accepts |
| ParameterValidation.NullIsLeast | test/unit/NatsnudasoftTests/NatsnudaLibrary/ParameterValidationTests.cs:96-330 | a null bound is always met from above and never strictly from below; a null value is never strictly greater than anything; only null is at most null |
| ParameterValidation.NullMaximum | test/unit/NatsnudasoftTests/NatsnudaLibrary/ParameterValidationTests.cs:395-460 | with a null maximum the exclusive range is empty and the inclusive range holds only null (and only with a null minimum) |
| ParameterValidationCases.OrdinalIsAntisymmetric | test/unit/NatsnudasoftTests/NatsnudaLibrary/ParameterValidationTests.cs:512-515 | the ordinal comparer meets the premise of the ordering guards' contracts |
| ParameterValidationCases.NullAndEmptyTable | test/unit/NatsnudasoftTests/NatsnudaLibrary/ParameterValidationTests.cs:26-94 | the null and empty test rows, outcome and exception |
| ParameterValidationCases.GreaterThanTable | test/unit/NatsnudasoftTests/NatsnudaLibrary/ParameterValidationTests.cs:96-153 | every IsGreaterThan row |
| ParameterValidationCases.LessThanTable | test/unit/NatsnudasoftTests/NatsnudaLibrary/ParameterValidationTests.cs:155-212 | every IsLessThan row |
| ParameterValidationCases.GreaterThanOrEqualToTable | test/unit/NatsnudasoftTests/NatsnudaLibrary/ParameterValidationTests.cs:214-273 | every IsGreaterThanOrEqualTo row |
| ParameterValidationCases.LessThanOrEqualToTable | test/unit/NatsnudasoftTests/NatsnudaLibrary/ParameterValidationTests.cs:274-330 | every IsLessThanOrEqualTo row |
| ParameterValidationCases.BetweenTable | test/unit/NatsnudasoftTests/NatsnudaLibrary/ParameterValidationTests.cs:332-393 | every IsBetween row, both boundaries rejected |
| ParameterValidationCases.BetweenInclusiveTable | test/unit/NatsnudasoftTests/NatsnudaLibrary/ParameterValidationTests.cs:395-460 | every IsBetweenInclusive row, both boundaries accepted |
| ParameterValidationCases.BooleanTable | test/unit/NatsnudasoftTests/NatsnudaLibrary/ParameterValidationTests.cs:462-508 | the IsTrue and IsFalse rows |
| EqualsOverride.IsEqualsMethod | src/TestExtensions/EqualsOverrideAssertion.cs:99-109 | a method passes the filter exactly when it has the shape bool Equals(p) on some known reflected type |
| EqualsOverride.IsObjectParameter | src/TestExtensions/EqualsOverrideAssertion.cs:120-126 | a parameter of exactly type object is also a nullable parameter |
| EqualsOverride.IsNullableParameter | src/TestExtensions/EqualsOverrideAssertion.cs:138-146 | a parameter can hold null exactly when its type is not a plain value type: object, classes, interfaces and Nullable<T> can |
| EqualsOverride.ParameterClassification | src/TestExtensions/EqualsOverrideAssertion.cs:120-146 | an object parameter is nullable; a plain value type is not; Nullable<T>, class and interface parameters are nullable and not object |
| EqualsOverride.NewConfigWithCount | src/TestExtensions/EqualsOverrideAssertion.cs:55-61 | fails with ArgumentNullException exactly for a null builder; otherwise stores builder and count unchanged, with no range check on the count |
| EqualsOverride.NewConfig | src/TestExtensions/EqualsOverrideAssertion.cs:41-45 | as above, with the successive count fixed at 3 |
| EqualsOverrideRules.VerifySelf | src/TestExtensions/EqualsOverrideSelfAssertion.cs:54-66 | creates one owner specimen, invokes Equals once with it as receiver and argument, fails exactly when that returns false, naming the reflected type |
| EqualsOverrideRules.VerifyNull | src/TestExtensions/EqualsOverrideNullAssertion.cs:54-69 | does nothing unless the parameter is nullable; otherwise one owner specimen, one invocation with null, failing exactly when it returns true |
| EqualsOverrideRules.VerifyNewObject | src/TestExtensions/EqualsOverrideNewObjectAssertion.cs:54-71 | does nothing unless the parameter is object; otherwise one owner specimen, one invocation with a new object, failing exactly when it returns true |
| EqualsOverrideRules.VerifyOtherSuccessive | src/TestExtensions/EqualsOverrideOtherSuccessiveAssertion.cs:56-78 | does nothing for an object parameter; otherwise creates owner then other, invokes owner.Equals(other) count times without stopping early, and passes exactly when count > 0 and every answer equals the first; a negative count throws ArgumentOutOfRangeException before any invocation |
| EqualsOverrideRules.DistinctCountIsOne | src/TestExtensions/EqualsOverrideOtherSuccessiveAssertion.cs:64-68 | the results have exactly one distinct value exactly when there is at least one result and all equal the first |
| EqualsOverrideRules.ApplicabilityPartition | src/TestExtensions/EqualsOverrideAssertion.cs:120-146 | the new-object and other-successive rules apply to complementary sets of Equals methods; where new-object applies, null applies too; self always applies |
| EqualsOverrideRules.ZeroCountFailsOtherSuccessive | src/TestExtensions/EqualsOverrideOtherSuccessiveAssertion.cs:64-68 | with count 0 there is no distinct result, so the rule fails with no invocation |
| EqualsOverrideRules.ConstantAnswerPassesOtherSuccessive | src/TestExtensions/EqualsOverrideOtherSuccessiveAssertion.cs:64-68 | an Equals that always gives the same answer passes for any positive count |
| EqualsOverrideRules.ChangingAnswerFailsOtherSuccessive | src/TestExtensions/EqualsOverrideOtherSuccessiveAssertion.cs:64-68 | an Equals whose second answer differs from its first fails, after all count invocations |
| EqualsOverrideTheories.NewTheory | src/TestExtensions/EqualsOverrideTheory.cs:36-44 | rejects a null left, then a null right, with ArgumentNullException; otherwise stores all three fields |
| EqualsOverrideTheories.MatchingRun | src/TestExtensions/EqualsOverrideTheoriesSuccessiveAssertion.cs:103-105 | the number of leading successive answers equal to the expectation; the one after them, if within count, differs (where All stops) |
| EqualsOverrideTheories.TheoriesFrom | src/TestExtensions/EqualsOverrideTheoriesSuccessiveAssertion.cs:85-118 | the theories rule creates no specimen, and every invocation it makes is left.Equals(right) of one of the theories |
| EqualsOverrideTheories.AskTheory | src/TestExtensions/EqualsOverrideTheoriesSuccessiveAssertion.cs:103-105 | the short-circuiting All: every one of count answers matches exactly when the matching run is count long; otherwise it stops after the first mismatch |
| EqualsOverrideTheories.CheckTheory | src/TestExtensions/EqualsOverrideTheoriesSuccessiveAssertion.cs:88-117 | one pass of the loop body either ends the rule exactly as the reference trace does or continues it with the next theory |
| EqualsOverrideTheories.VerifyTheories | src/TestExtensions/EqualsOverrideTheoriesSuccessiveAssertion.cs:81-119 | the loop over theories, with its short-circuiting inner All, yields exactly the reference trace |
| EqualsOverrideTheories.TheoriesRunMeaning | src/TestExtensions/EqualsOverrideTheoriesSuccessiveAssertion.cs:85-118 | for count >= 0 the rule passes exactly when every theory holds, making count invocations per theory whose Right fits; a failure reports the first theory that does not hold, as owner mismatch or as wrong answers |
| EqualsOverrideTheories.TheoriesFromPass | src/TestExtensions/EqualsOverrideTheoriesSuccessiveAssertion.cs:85-118 | checking every suffix of the theory array passes exactly when each theory in it holds, and then makes count invocations per fitting theory |
| EqualsOverrideTheories.TheoriesFromFail | src/TestExtensions/EqualsOverrideTheoriesSuccessiveAssertion.cs:85-118 | checking a suffix fails with the error for the first theory in it that does not hold |
| EqualsOverrideTheories.TheoryStep | src/TestExtensions/EqualsOverrideTheoriesSuccessiveAssertion.cs:88-117 | one theory either holds, and the rule moves on after its invocations, or does not, and the rule fails there with an owner mismatch or a wrong answer |
| EqualsOverrideTheories.NegativeCountThrowsOnFittingTheory | src/TestExtensions/EqualsOverrideTheoriesSuccessiveAssertion.cs:100-105 | with a negative count nothing is invoked, and the rule passes exactly when every Left has the owner type and no Right fits |
| EqualsOverrideTheories.ZeroCountChecksOnlyOwners | src/TestExtensions/EqualsOverrideTheoriesSuccessiveAssertion.cs:103-105 | with count 0 the rule passes exactly when every Left has the owner type |
| EqualsOverrideVerify.NewAssertion | src/TestExtensions/EqualsOverrideSelfAssertion.cs:40-43 | each one-argument constructor rejects only a null builder; otherwise it stores the builder with count 3 and the rule, a theories rule without an array |
| EqualsOverrideVerify.NewTheoriesAssertion | src/TestExtensions/EqualsOverrideTheoriesSuccessiveAssertion.cs:62-70 | builder checked first, then the theory array, each with ArgumentNullException; otherwise the builder is stored with count 3 and the array |
| EqualsOverrideVerify.VerifyEqualsMethod | src/TestExtensions/EqualsOverrideTheoriesSuccessiveAssertion.cs:81-88 | each concrete assertion's override: the self, null and new-object assertions run their rules (EqualsOverrideRules rows, citing their overrides), the other-successive assertion runs its rule with the configured count; a theories assertion without an array throws NullReferenceException, with one it runs the theories rule with the configured count |
| EqualsOverrideVerify.Verify | src/TestExtensions/EqualsOverrideAssertion.cs:80-88 | a null method gives ArgumentNullException("methodInfo"); a non-Equals method is ignored with no specimen and no invocation; an Equals method goes to the rule |
| EqualsOverrideVerify.FailuresNameTheOwner | src/TestExtensions/EqualsOverrideTheoriesSuccessiveAssertion.cs:90-116 | for every rule, given a non-negative count and (for the theories rule) an array, every failure is an EqualsOverrideException naming the reflected type |
| EqualsOverrideVerify.OnlyEqualsMethodsAreInvoked | src/TestExtensions/EqualsOverrideAssertion.cs:80-88 | a Verify call that creates or invokes anything was given an Equals method |
| EqualsOverrideCases.FilterCases | test/unit/NatsnudasoftTests/TestExtension/EqualsOverrideAssertionTests.cs:120-197 | the filter and parameter-classification rows on the test helper's methods |
| EqualsOverrideCases.SelfCases | test/unit/NatsnudasoftTests/TestExtension/EqualsOverrideSelfAssertionTests.cs:60-96 | a helper unequal to itself fails the self rule; one equal to itself passes after exactly one invocation; EqualsWrongName is ignored |
| EqualsOverrideCases.TheoriesOwnerAndFitCases | test/unit/NatsnudasoftTests/TestExtension/EqualsOverrideTheoriesSuccessiveAssertionTests.cs:61-101 | a Left of the wrong type fails before any invocation; a Right that does not fit is skipped without one |
| EqualsOverrideCases.TheoriesSuccessiveCases | test/unit/NatsnudasoftTests/TestExtension/EqualsOverrideTheoriesSuccessiveAssertionTests.cs:103-153 | answers true, false, ... fail at the second invocation; steady answers pass after exactly three |
| BehaviorExpectations.NewExceptionExpectation | src/TestExtensions/ExceptionBehaviorExpectation.cs:78-98 | checks builder, extensions, name null, name empty, values null, values empty, in that order; the first failure decides the error; otherwise all fields stored unchanged |
| BehaviorExpectations.NewDefaultExceptionExpectation | src/TestExtensions/ExceptionBehaviorExpectation.cs:54-60 | the same checks in the same order with default extensions, so no extensions error; each bad argument gives its own error; otherwise builder, default extensions, name and values are stored unchanged |
| BehaviorExpectations.ValueVerdict | src/TestExtensions/ExceptionBehaviorExpectation.cs:134-152 | a value passes only if its execution threw exactly the expected type; otherwise the guard-clause exception for it, or a NullReferenceException when the value is null |
| BehaviorExpectations.VerifyException | src/TestExtensions/ExceptionBehaviorExpectation.cs:120-154 | null command rejected; not applicable unless the invoked parameter has the configured name; otherwise executes values in order, passes exactly when every one threw exactly T, and stops at the first that did not with that value's failure |
| BehaviorExpectations.NewNullReferenceExpectation | src/TestExtensions/ParameterNullReferenceBehaviorExpectation.cs:57-66 | rejects a null builder, then null extensions; otherwise stores both |
| BehaviorExpectations.NewDefaultNullReferenceExpectation | src/TestExtensions/ParameterNullReferenceBehaviorExpectation.cs:42-45 | rejects only a null builder; otherwise stores the builder with default extensions |
| BehaviorExpectations.VerifyNullReference | src/TestExtensions/ParameterNullReferenceBehaviorExpectation.cs:78-105 | null command rejected; only class or interface requests are checked; one execution with null, passing exactly when it throws something assignable to ArgumentNullException; otherwise a "null" guard-clause exception whose inner exception is exactly the one thrown, or none when nothing was thrown |
| BehaviorExpectations.NullReferenceVersusExactExpectation | src/TestExtensions/ParameterNullReferenceBehaviorExpectation.cs:86-103 | both expectations accept exactly ArgumentNullException; only the null-reference one accepts a subclass; when the null-reference one fails, the exact one fails with NullReferenceException |
| ParameterSpecimens.TargetChecks | src/TestExtensions/ParameterSpecimenBuilder.cs:43-45 | rejects a null declaring type, a null name, then an empty name |
| ParameterSpecimens.NewBuilder | src/TestExtensions/ParameterSpecimenBuilder.cs:39-49 | the target checks; on success stores type and name with no specimen value |
| ParameterSpecimens.NewBuilderWithValue | src/TestExtensions/ParameterSpecimenBuilder.cs:63-76 | the target checks, then a null value check; on success stores all three |
| ParameterSpecimens.Create | src/TestExtensions/ParameterSpecimenBuilder.cs:105-122 | yields a specimen exactly for a parameter request with matching declaring type, a type that accepts the (non-null) value, and matching name; the specimen is the stored value |
| ParameterSpecimens.ValuelessBuilderNeverMatches | src/TestExtensions/ParameterSpecimenBuilder.cs:109-114 | a builder from the two-argument constructor never yields a specimen |
| ParameterSpecimens.EveryConditionIsNeeded | test/unit/NatsnudasoftTests/TestExtension/ParameterSpecimenBuilderTests.cs:117-160 | from a full match, changing the declaring type, the name or the value fit alone gives NoSpecimen |
| ParameterSpecimens.NewCustomization | src/TestExtensions/ParameterCustomization.cs:38-48 | the target checks; stores type and name, no value |
| ParameterSpecimens.NewCustomizationWithValue | src/TestExtensions/ParameterCustomization.cs:62-75 | the target checks, then a null value check; stores all three |
| ParameterSpecimens.Customize | src/TestExtensions/ParameterCustomization.cs:99-116 | null fixture rejected; on success exactly one builder carrying the customization's fields is appended, the earlier customizations and the rest of the fixture unchanged |
| ParameterSpecimens.ConstructedCustomizationAlwaysCustomizes | src/TestExtensions/ParameterCustomization.cs:99-116 | a customization from either constructor never fails to customize a fixture |
| ParameterSpecimens.NewAttribute | src/TestExtensions/ParameterAttribute.cs:40-46 | null name, then empty name rejected; stores the name, no value |
| ParameterSpecimens.NewAttributeWithValue | src/TestExtensions/ParameterAttribute.cs:57-65 | null name, empty name, then null value rejected; stores both |
| ParameterSpecimens.GetCustomization | src/TestExtensions/ParameterAttribute.cs:84-104 | null parameter rejected; the customization targets the parameter's type as declaring type, with the attribute's name and value |
| ParameterSpecimens.AttributeTargetsParameterOfDecoratedType | src/TestExtensions/ParameterAttribute.cs:84-104 | from attribute to specimen: the builder finally added hands out the value exactly for parameters of the decorated type's members with the attribute's name whose type accepts the value, and nothing when there is no value |
| ParameterSpecimens.ConstructedAttributeAlwaysCustomizes | test/unit/NatsnudasoftTests/TestExtension/ParameterAttributeTests.cs:83-109 | an attribute from either constructor always yields a customization |
| PropertyChanged.NewAssertion | src/TestExtensions/PropertyChangedRaisedAssertion.cs:57-66 | rejects a null builder, then a null comparer; otherwise stores both |
| PropertyChanged.NewDefaultAssertion | src/TestExtensions/PropertyChangedRaisedAssertion.cs:43-46 | rejects only a null builder; otherwise stores the builder with the default comparer |
| PropertyChanged.SetVerdict | src/TestExtensions/PropertyChangedRaisedAssertion.cs:132-135 | passes exactly when the setter completed having raised one event naming the property; a setter exception propagates |
| PropertyChanged.Verify | src/TestExtensions/PropertyChangedRaisedAssertion.cs:85-137 | null property rejected; only settable properties of notifying types checked; draws values until one differs from the initial one, at most 100; when none does it fails before attaching; otherwise attach, set, detach (always), then the verdict |
| PropertyChanged.SetVerdictCases | src/TestExtensions/PropertyChangedRaisedAssertion.cs:132-135 | one event with the right name passes; two events, none, another name or a null name fail |

## Left out

- The culture-sensitive default string comparer is not modelled. The ordinal comparer stands in for it, and the test rows hold under both. Strings are sequences of Unicode scalars, not UTF-16 code units.
- Exception messages and their formatting are dropped. Errors are classified by exception type and the data they carry: the parameter name, the reflected type name, or the theory index.
- Reflection is abstracted. The reflected type, name, return type, parameter types, declaring type, interface and event lookup and setter visibility are plain fields. Type assignability is a parameter.
- Invoking Equals, executing a command, resolving specimens, getting and setting a property, and the comparer are oracles. Exceptions thrown by Equals or by the specimen builder are not modelled.
- `CreateSpecimen` and the AutoFixture specimen context are not modelled: a created specimen is recorded only by its requested type.
- `GuardClauseExtensions`, `IGuardClauseExtensions` and `AsyncMethodInvokeCommand` are not modelled. Whether a command is a method invocation, and for which parameter, is a field of the command. `CreateExtendedCommand` is folded into executing the command.
- `ParameterTypeFavoringConstructorQuery`, `DoesNotThrowAssertion`, `AutoMoqDataAttribute` and `PropertyChangedRaisedException` are not modelled. They lie outside the modelled core.
- `IRandom`, `SystemRandom`, the date-time providers and `AssemblyInfo` are not modelled. They are wrappers over the clock and the random generator.
- EqualsOverrideTheories.TheoriesRunMeaning: a null element in the theory array is not modelled. It would make `left.GetType()` throw NullReferenceException.
- PropertyChanged.Verify: does not model `AddEventHandler` itself throwing. It models only a throwing setter, after which the handler is still detached.
- EqualsOverrideVerify.NewAssertion: requires that a theories rule come without an array, because the one-argument constructor of the theories assertion never sets one.
- The redundant `IsNotNull(methodInfo)` inside each `VerifyEqualsMethod` is not modelled. That method is only reached through `Verify`, which has already checked the method.
