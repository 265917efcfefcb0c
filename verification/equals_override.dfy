/** The shared part of the Equals-contract assertions (EqualsOverrideAssertion):
    the filter that recognises an Equals method, the classification of its
    parameter type, the configuration every rule is built with, and the trace
    a rule leaves behind. Invoking Equals is not modelled: every rule receives
    an oracle that answers the k-th invocation of one Verify call.
 */
module EqualsOverride {
  import opened Wrappers
  import opened Clr
  import PV = ParameterValidation

  const DefaultSuccessiveCount: int := 3

  /** A reflected method: ReflectedType (null for some reflected members),
      Name, ReturnType and the types of its parameters in order. */
  datatype MethodDesc = MethodDesc(
    reflectedType: Option<ClrType>,
    name: string,
    returnType: ClrType,
    parameterTypes: seq<ClrType>)

  /** An Equals method: reflected type known, named Equals, returning bool,
      taking exactly one parameter. */
  function IsEqualsMethod(m: MethodDesc): (b: bool)
    ensures b <==> exists owner, p :: m == MethodDesc(Some(owner), "Equals", BoolType, [p])
  {
    assert m.reflectedType.Some? && |m.parameterTypes| == 1 ==>
      m.parameterTypes == [m.parameterTypes[0]];
    && m.reflectedType.Some?
    && m.name == "Equals"
    && m.returnType == BoolType
    && |m.parameterTypes| == 1
  }

  function Owner(m: MethodDesc): ClrType
    requires m.reflectedType.Some?
  {
    m.reflectedType.value
  }

  /** The type of the first parameter (GetParameters().First()). */
  function ParameterType(m: MethodDesc): ClrType
    requires |m.parameterTypes| > 0
  {
    m.parameterTypes[0]
  }

  /** IsEqualsParameterObjectType: the parameter is exactly object. */
  function IsObjectParameter(m: MethodDesc): (b: bool)
    requires |m.parameterTypes| > 0
    ensures b ==> IsNullableParameter(m)
  {
    ParameterType(m) == ObjectType
  }

  /** IsEqualsParameterNullableType: the parameter can be assigned null, being
      a class, an interface or a Nullable<T>. */
  function IsNullableParameter(m: MethodDesc): (b: bool)
    requires |m.parameterTypes| > 0
    ensures b <==> !ParameterType(m).StructType?
  {
    var t := ParameterType(m);
    IsClass(t) || IsInterface(t) || NullableUnderlying(t).Some?
  }

  /** An object-typed parameter is always a nullable one; a plain value type
      such as bool never is, while bool? and every class or interface are. */
  lemma ParameterClassification(m: MethodDesc)
    requires |m.parameterTypes| > 0
    ensures IsObjectParameter(m) ==> IsNullableParameter(m)
    ensures ParameterType(m).StructType? ==> !IsNullableParameter(m)
    ensures ParameterType(m).NullableType? || ParameterType(m).ClassType? || ParameterType(m).InterfaceType?
            ==> IsNullableParameter(m) && !IsObjectParameter(m)
  {
  }

  /** The configuration stored by EqualsOverrideAssertion's constructors. */
  datatype Config = Config(specimenBuilder: Handle, successiveCount: int)

  /** The protected two-argument constructor: only the builder is checked; the
      count is stored as given, with no range check. */
  function NewConfigWithCount(specimenBuilder: Option<Handle>, successiveCount: int): (r: Result<Config, PV.GuardError>)
    ensures r.Success? <==> specimenBuilder.Some?
    ensures r.Failure? ==> r.error == PV.ArgumentNull("specimenBuilder")
    ensures r.Success? ==> r.value.specimenBuilder == specimenBuilder.value && r.value.successiveCount == successiveCount
  {
    var check := PV.IsNotNull(specimenBuilder, "specimenBuilder");
    if check.Fail? then Failure(check.error) else Success(Config(specimenBuilder.value, successiveCount))
  }

  /** The one-argument constructor, used by every concrete rule: the count is 3. */
  function NewConfig(specimenBuilder: Option<Handle>): (r: Result<Config, PV.GuardError>)
    ensures r.Success? <==> specimenBuilder.Some?
    ensures r.Failure? ==> r.error == PV.ArgumentNull("specimenBuilder")
    ensures r.Success? ==> r.value.specimenBuilder == specimenBuilder.value && r.value.successiveCount == 3
  {
    NewConfigWithCount(specimenBuilder, DefaultSuccessiveCount)
  }

  /** An argument or receiver of an Equals invocation: null, a fresh
      new object(), the i-th specimen created in this Verify call, or an
      object supplied by a theory. */
  datatype Value = NullValue | NewObject | Specimen(index: nat) | Given(obj: Obj)

  datatype Call = Call(receiver: Value, argument: Value)

  /** The answer Equals gives to an invocation, given the call and its
      position among the invocations of one Verify call. */
  type EqualsOracle = (Call, nat) -> bool

  /** Which law a rule found broken; theory failures carry the theory's index. */
  datatype Violation =
    | SelfNotEqual             // x.Equals(x) returned false
    | NullEqual                // x.Equals(null) returned true
    | NewObjectEqual           // x.Equals(new object()) returned true
    | ResultsDiffer            // x.Equals(y) did not give one distinct result
    | OwnerMismatch(index: nat)   // a theory's Left is not of the owner type ("owner method")
    | TheoryMismatch(index: nat)  // a theory's result departed from the expectation ("multiple times")

  /** What Verify can throw: a guard's exception, a NullReferenceException, or
      an EqualsOverrideException naming the reflected type. */
  datatype VerifyError =
    | Guard(error: PV.GuardError)
    | NullReference
    | EqualsOverrideException(typeName: string, violation: Violation)

  /** The trace of one Verify call: its outcome, the types of the specimens it
      created in order, and the Equals invocations it made in order. */
  datatype Run = Run(outcome: Outcome<VerifyError>, created: seq<ClrType>, calls: seq<Call>)

  /** The trace of a rule that does not apply: nothing created or invoked. */
  const Skipped: Run := Run(Pass, [], [])

  function Violated(m: MethodDesc, v: Violation): VerifyError
    requires m.reflectedType.Some?
  {
    EqualsOverrideException(Name(Owner(m)), v)
  }

  /** `count` copies of one call. */
  function Repeat(c: Call, count: nat): (s: seq<Call>)
    ensures |s| == count
    ensures forall i :: 0 <= i < count ==> s[i] == c
  {
    seq(count, _ => c)
  }
}
