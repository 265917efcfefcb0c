/** The two guard-clause behaviour expectations. Each receives a guard-clause
    command, decides whether it applies, executes the command with the
    values it cares about and turns an unexpected outcome into the command's
    guard-clause exception.

    Executing a command is not modelled: an executor answers whether the
    n-th execution of this Verify call, with a given argument, completed or
    threw an exception of a given runtime type.
 */
module BehaviorExpectations {
  import opened Wrappers
  import opened Clr
  import PV = ParameterValidation

  /** A guard-clause command: the type it requests, and, when
      TryGetMethodInvokeCommand recognises it as a method invocation, the
      name of the parameter it supplies. */
  datatype Command = Command(requestedType: ClrType, invokedParameter: Option<string>)

  datatype ExecOutcome = Completed | Threw(exceptionType: ClrType)

  type Executor = (Option<Obj>, nat) -> ExecOutcome

  /** The value a guard-clause exception names: the literal "null", or a
      value's quoted ToString(). */
  datatype ValueText = NullText | Quoted(value: Obj)

  /** What Verify can throw: a guard's exception, the NullReferenceException
      of calling ToString() on a null value, or the command's guard-clause
      exception with the exception it wraps, if any. */
  datatype BehaviorError =
    | Guard(error: PV.GuardError)
    | NullReference
    | GuardClause(text: ValueText, inner: Option<ClrType>)

  /** The outcome of one Verify call and the arguments it executed the
      command with, in order. */
  datatype Trace = Trace(outcome: Outcome<BehaviorError>, executed: seq<Option<Obj>>)

  /** The handle the default constructors pass for `new GuardClauseExtensions()`. */
  const DefaultExtensions := Handle(0)

  // ExceptionBehaviorExpectation<T>

  /** The expectation that every value makes the command throw exactly T. */
  datatype ExceptionExpectation = ExceptionExpectation(
    expected: ClrType,
    specimenBuilder: Handle,
    extensions: Handle,
    parameterName: string,
    values: seq<Option<Obj>>)

  /** The full constructor's checks, in their order: builder, extensions,
      parameter name null then empty, values null then empty. Values may
      contain null elements. */
  function NewExceptionExpectation(expected: ClrType, specimenBuilder: Option<Handle>, extensions: Option<Handle>,
                                   parameterName: Option<string>, values: Option<seq<Option<Obj>>>)
    : (r: Result<ExceptionExpectation, PV.GuardError>)
    ensures r.Success? <==>
      specimenBuilder.Some? && extensions.Some? && parameterName.Some? && parameterName.value != ""
      && values.Some? && values.value != []
    ensures specimenBuilder.None? ==> r == Failure(PV.ArgumentNull("specimenBuilder"))
    ensures specimenBuilder.Some? && extensions.None? ==> r == Failure(PV.ArgumentNull("guardClauseExtensions"))
    ensures specimenBuilder.Some? && extensions.Some? && parameterName.None? ==> r == Failure(PV.ArgumentNull("parameterName"))
    ensures specimenBuilder.Some? && extensions.Some? && parameterName == Some("") ==> r == Failure(PV.Argument("parameterName"))
    ensures specimenBuilder.Some? && extensions.Some? && parameterName.Some? && parameterName.value != "" && values.None? ==>
      r == Failure(PV.ArgumentNull("values"))
    ensures specimenBuilder.Some? && extensions.Some? && parameterName.Some? && parameterName.value != "" && values == Some([]) ==>
      r == Failure(PV.Argument("values"))
    ensures r.Success? ==> r.value == ExceptionExpectation(expected, specimenBuilder.value, extensions.value, parameterName.value, values.value)
  {
    var sb := PV.IsNotNull(specimenBuilder, "specimenBuilder");
    var ext := PV.IsNotNull(extensions, "guardClauseExtensions");
    var nameNull := PV.IsNotNull(parameterName, "parameterName");
    var nameEmpty := PV.IsNotEmpty(parameterName, "parameterName");
    var valuesNull := PV.IsNotNull(values, "values");
    if sb.Fail? then Failure(sb.error)
    else if ext.Fail? then Failure(ext.error)
    else if nameNull.Fail? then Failure(nameNull.error)
    else if nameEmpty.Fail? then Failure(nameEmpty.error)
    else if valuesNull.Fail? then Failure(valuesNull.error)
    else if |values.value| == 0 then Failure(PV.Argument("values"))
    else Success(ExceptionExpectation(expected, specimenBuilder.value, extensions.value, parameterName.value, values.value))
  }

  /** The constructor without extensions uses the default ones. */
  function NewDefaultExceptionExpectation(expected: ClrType, specimenBuilder: Option<Handle>,
                                          parameterName: Option<string>, values: Option<seq<Option<Obj>>>)
    : (r: Result<ExceptionExpectation, PV.GuardError>)
    ensures r.Success? <==>
      specimenBuilder.Some? && parameterName.Some? && parameterName.value != "" && values.Some? && values.value != []
    ensures specimenBuilder.None? ==> r == Failure(PV.ArgumentNull("specimenBuilder"))
    ensures specimenBuilder.Some? && parameterName.None? ==> r == Failure(PV.ArgumentNull("parameterName"))
    ensures specimenBuilder.Some? && parameterName == Some("") ==> r == Failure(PV.Argument("parameterName"))
    ensures specimenBuilder.Some? && parameterName.Some? && parameterName.value != "" && values.None? ==>
      r == Failure(PV.ArgumentNull("values"))
    ensures specimenBuilder.Some? && parameterName.Some? && parameterName.value != "" && values == Some([]) ==>
      r == Failure(PV.Argument("values"))
    ensures r.Success? ==>
      r.value == ExceptionExpectation(expected, specimenBuilder.value, DefaultExtensions, parameterName.value, values.value)
  {
    NewExceptionExpectation(expected, specimenBuilder, Some(DefaultExtensions), parameterName, values)
  }

  /** The expectation applies to a method-invocation command that supplies
      the named parameter. */
  predicate ExceptionApplies(e: ExceptionExpectation, c: Command) {
    c.invokedParameter == Some(e.parameterName)
  }

  /** The failure for a value whose execution did not throw exactly T:
      formatting a null value dereferences it. */
  function ValueFailure(value: Option<Obj>, result: ExecOutcome): BehaviorError {
    if value.None? then NullReference
    else GuardClause(Quoted(value.value), if result.Threw? then Some(result.exceptionType) else None)
  }

  /** The verdict on one value: only an exception of exactly the expected
      type passes. */
  function ValueVerdict(expected: ClrType, value: Option<Obj>, result: ExecOutcome): (r: Outcome<BehaviorError>)
    ensures r.Pass? <==> result.Threw? && result.exceptionType == expected
    ensures r.Fail? ==> r.error == ValueFailure(value, result)
  {
    if result == Threw(expected) then Pass else Fail(ValueFailure(value, result))
  }

  /** Verify: executes the command once per value, in order, and stops at the
      first value whose execution did not throw exactly the expected type. */
  method VerifyException(e: ExceptionExpectation, command: Option<Command>, execute: Executor) returns (t: Trace)
    ensures command.None? ==> t == Trace(Fail(Guard(PV.ArgumentNull("command"))), [])
    ensures command.Some? && !ExceptionApplies(e, command.value) ==> t == Trace(Pass, [])
    ensures command.Some? && ExceptionApplies(e, command.value) ==>
      && (t.outcome.Pass? <==> forall i :: 0 <= i < |e.values| ==> execute(e.values[i], i) == Threw(e.expected))
      && (t.outcome.Pass? ==> t.executed == e.values)
      && (t.outcome.Fail? ==>
            && 0 < |t.executed| <= |e.values|
            && t.executed == e.values[..|t.executed|]
            && (forall i :: 0 <= i < |t.executed| - 1 ==> execute(e.values[i], i) == Threw(e.expected))
            && var last := |t.executed| - 1;
               execute(e.values[last], last) != Threw(e.expected)
               && t.outcome.error == ValueFailure(e.values[last], execute(e.values[last], last)))
  {
    var check := PV.IsNotNull(command, "command");
    if check.Fail? {
      return Trace(Fail(Guard(check.error)), []);
    }
    if command.value.invokedParameter != Some(e.parameterName) {
      return Trace(Pass, []);
    }
    var executed := [];
    var i := 0;
    while i < |e.values|
      invariant 0 <= i <= |e.values|
      invariant executed == e.values[..i]
      invariant forall j :: 0 <= j < i ==> execute(e.values[j], j) == Threw(e.expected)
    {
      var value := e.values[i];
      var verdict := ValueVerdict(e.expected, value, execute(value, i));
      executed := executed + [value];
      if verdict.Fail? {
        return Trace(verdict, executed);
      }
      i := i + 1;
    }
    return Trace(Pass, executed);
  }

  // ParameterNullReferenceBehaviorExpectation

  datatype NullReferenceExpectation = NullReferenceExpectation(specimenBuilder: Handle, extensions: Handle)

  function NewNullReferenceExpectation(specimenBuilder: Option<Handle>, extensions: Option<Handle>)
    : (r: Result<NullReferenceExpectation, PV.GuardError>)
    ensures r.Success? <==> specimenBuilder.Some? && extensions.Some?
    ensures specimenBuilder.None? ==> r == Failure(PV.ArgumentNull("specimenBuilder"))
    ensures specimenBuilder.Some? && extensions.None? ==> r == Failure(PV.ArgumentNull("guardClauseExtensions"))
    ensures r.Success? ==> r.value == NullReferenceExpectation(specimenBuilder.value, extensions.value)
  {
    var sb := PV.IsNotNull(specimenBuilder, "specimenBuilder");
    if sb.Fail? then Failure(sb.error)
    else
      var ext := PV.IsNotNull(extensions, "guardClauseExtensions");
      if ext.Fail? then Failure(ext.error)
      else Success(NullReferenceExpectation(specimenBuilder.value, extensions.value))
  }

  function NewDefaultNullReferenceExpectation(specimenBuilder: Option<Handle>)
    : (r: Result<NullReferenceExpectation, PV.GuardError>)
    ensures r.Success? <==> specimenBuilder.Some?
    ensures r.Success? ==> r.value == NullReferenceExpectation(specimenBuilder.value, DefaultExtensions)
    ensures r.Failure? ==> r.error == PV.ArgumentNull("specimenBuilder")
  {
    NewNullReferenceExpectation(specimenBuilder, Some(DefaultExtensions))
  }

  /** The expectation applies to a command requesting a class or an interface. */
  predicate NullReferenceApplies(c: Command) {
    IsClass(c.requestedType) || IsInterface(c.requestedType)
  }

  /** Verify: executes the command once with null; any exception assignable
      to ArgumentNullException is the expected one (a catch clause, so
      subclasses count), any other is wrapped, and no exception at all fails. */
  function VerifyNullReference(e: NullReferenceExpectation, command: Option<Command>,
                               assignable: Assignability, execute: Executor): (t: Trace)
    ensures command.None? ==> t == Trace(Fail(Guard(PV.ArgumentNull("command"))), [])
    ensures command.Some? && !NullReferenceApplies(command.value) ==> t == Trace(Pass, [])
    ensures command.Some? && NullReferenceApplies(command.value) ==>
      && t.executed == [None]
      && (t.outcome.Pass? <==> execute(None, 0).Threw? && assignable(ArgumentNullExceptionType, execute(None, 0).exceptionType))
      && (t.outcome.Fail? ==>
            && t.outcome.error.GuardClause? && t.outcome.error.text == NullText
            && (execute(None, 0).Completed? ==> t.outcome.error.inner == None)
            && (execute(None, 0).Threw? ==> t.outcome.error.inner == Some(execute(None, 0).exceptionType)))
  {
    var check := PV.IsNotNull(command, "command");
    if check.Fail? then Trace(Fail(Guard(check.error)), [])
    else if !NullReferenceApplies(command.value) then Trace(Pass, [])
    else
      var result := execute(None, 0);
      var outcome :=
        match result
        case Threw(exceptionType) =>
          if assignable(ArgumentNullExceptionType, exceptionType) then Pass
          else Fail(GuardClause(NullText, Some(exceptionType)))
        case Completed => Fail(GuardClause(NullText, None));
      Trace(outcome, [None])
  }

  /** The execution threw a proper subclass of ArgumentNullException. */
  predicate SubclassThrown(assignable: Assignability, result: ExecOutcome) {
    && result.Threw?
    && result.exceptionType != ArgumentNullExceptionType
    && assignable(ArgumentNullExceptionType, result.exceptionType)
  }

  /** The null-reference expectation against the exact-type expectation of
      ArgumentNullException for the single value null: both pass when exactly
      ArgumentNullException is thrown; a subclass of it passes only the first;
      anything else fails both, the second by dereferencing the null value
      rather than with a guard-clause exception. */
  lemma NullReferenceVersusExactExpectation(e: NullReferenceExpectation, c: Command,
                                            assignable: Assignability, execute: Executor)
    requires NullReferenceApplies(c)
    requires assignable(ArgumentNullExceptionType, ArgumentNullExceptionType)
    ensures var result := execute(None, 0);
      var loose := VerifyNullReference(e, Some(c), assignable, execute).outcome;
      var exact := ValueVerdict(ArgumentNullExceptionType, None, result);
      && (result == Threw(ArgumentNullExceptionType) ==> loose.Pass? && exact.Pass?)
      && (SubclassThrown(assignable, result) ==> loose.Pass? && exact == Fail(NullReference))
      && (loose.Fail? ==> exact == Fail(NullReference) && loose.error.GuardClause?)
  {
  }
}
