/** PropertyChangedRaisedAssertion: setting a public property of a type that
    implements INotifyPropertyChanged to a new value must raise
    PropertyChanged exactly once, naming that property.

    Specimen creation, the property getter and setter and the value comparer
    are parameters: `initial` is the value the getter returns on the new
    specimen, `draw(j)` the value the j-th resolution of the property type
    produces, `same` the comparer's Equals, and `setter` what setting a value
    does while the handler is attached.
 */
module PropertyChanged {
  import opened Wrappers
  import opened Clr
  import PV = ParameterValidation

  /** The number of candidate values drawn before giving up. */
  const MaxRetryCount: nat := 100

  /** A reflected property: the type it is reflected from, its name and type,
      whether that type exposes INotifyPropertyChanged.PropertyChanged, and
      whether the property has a public setter. */
  datatype PropertyDesc = PropertyDesc(
    reflectedType: ClrType,
    name: string,
    propertyType: ClrType,
    notifies: bool,
    hasPublicSetter: bool)

  datatype Assertion = Assertion(specimenBuilder: Handle, comparer: Handle)

  /** The handle the one-argument constructor passes for EqualityComparer<object>.Default. */
  const DefaultComparer := Handle(0)

  function NewAssertion(specimenBuilder: Option<Handle>, comparer: Option<Handle>): (r: Result<Assertion, PV.GuardError>)
    ensures r.Success? <==> specimenBuilder.Some? && comparer.Some?
    ensures specimenBuilder.None? ==> r == Failure(PV.ArgumentNull("specimenBuilder"))
    ensures specimenBuilder.Some? && comparer.None? ==> r == Failure(PV.ArgumentNull("propertyValueComparer"))
    ensures r.Success? ==> r.value == Assertion(specimenBuilder.value, comparer.value)
  {
    var sb := PV.IsNotNull(specimenBuilder, "specimenBuilder");
    var cmp := PV.IsNotNull(comparer, "propertyValueComparer");
    if sb.Fail? then Failure(sb.error)
    else if cmp.Fail? then Failure(cmp.error)
    else Success(Assertion(specimenBuilder.value, comparer.value))
  }

  function NewDefaultAssertion(specimenBuilder: Option<Handle>): (r: Result<Assertion, PV.GuardError>)
    ensures r.Success? <==> specimenBuilder.Some?
    ensures r.Failure? ==> r.error == PV.ArgumentNull("specimenBuilder")
    ensures r.Success? ==> r.value == Assertion(specimenBuilder.value, DefaultComparer)
  {
    NewAssertion(specimenBuilder, Some(DefaultComparer))
  }

  /** What setting the property does: it completes, having raised
      PropertyChanged with these names (a name may be null), or it throws. */
  datatype SetOutcome = Raised(names: seq<Option<string>>) | SetThrew(exceptionType: ClrType)

  /** The observable steps of one Verify call, in order. */
  datatype Step = Resolve(requested: ClrType) | Attach | Assign(value: Option<Obj>) | Detach

  datatype PropertyError =
    | Guard(error: PV.GuardError)
    | NoUniqueValue                  // every drawn value equalled the initial one
    | NotRaised(property: string)    // PropertyChangedRaisedException for the property
    | SetterException(exceptionType: ClrType)

  datatype Trace = Trace(outcome: Outcome<PropertyError>, steps: seq<Step>)

  /** The assertion looks only at settable properties of notifying types. */
  predicate Applies(p: PropertyDesc) {
    p.notifies && p.hasPublicSetter
  }

  /** `count` resolutions of one type. */
  function Resolutions(t: ClrType, count: nat): (s: seq<Step>)
    ensures |s| == count && forall i :: 0 <= i < count ==> s[i] == Resolve(t)
  {
    seq(count, _ => Resolve(t))
  }

  /** The verdict on the events the handler recorded while the value was set. */
  function SetVerdict(p: PropertyDesc, effect: SetOutcome): (r: Outcome<PropertyError>)
    ensures r.Pass? <==> effect.Raised? && |effect.names| == 1 && effect.names[0] == Some(p.name)
    ensures effect.SetThrew? ==> r == Fail(SetterException(effect.exceptionType))
    ensures effect.Raised? && r.Fail? ==> r == Fail(NotRaised(p.name))
  {
    match effect
    case SetThrew(e) => Fail(SetterException(e))
    case Raised(names) =>
      if |names| != 1 || names[0] != Some(p.name) then Fail(NotRaised(p.name)) else Pass
  }

  /** Verify. Alongside the trace it returns how many candidate values were
      drawn. The handler is detached whether or not the setter throws. */
  method Verify(a: Assertion, property: Option<PropertyDesc>, initial: Option<Obj>,
                draw: nat -> Option<Obj>, same: (Option<Obj>, Option<Obj>) -> bool,
                setter: Option<Obj> -> SetOutcome)
    returns (t: Trace, draws: nat)
    ensures property.None? ==> t == Trace(Fail(Guard(PV.ArgumentNull("propertyInfo"))), []) && draws == 0
    ensures property.Some? && !Applies(property.value) ==> t == Trace(Pass, []) && draws == 0
    ensures property.Some? && Applies(property.value) ==>
      var p := property.value;
      && 1 <= draws <= MaxRetryCount
      && (forall j :: 0 <= j < draws - 1 ==> same(draw(j), initial))
      && (t.outcome == Fail(NoUniqueValue) <==> same(draw(draws - 1), initial))
      && (same(draw(draws - 1), initial) ==>
            draws == MaxRetryCount && t.steps == [Resolve(p.reflectedType)] + Resolutions(p.propertyType, draws))
      && (!same(draw(draws - 1), initial) ==>
            && t.steps == [Resolve(p.reflectedType)] + Resolutions(p.propertyType, draws)
                          + [Attach, Assign(draw(draws - 1)), Detach]
            && t.outcome == SetVerdict(p, setter(draw(draws - 1))))
  {
    var check := PV.IsNotNull(property, "propertyInfo");
    if check.Fail? {
      return Trace(Fail(Guard(check.error)), []), 0;
    }
    var p := property.value;
    if !Applies(p) {
      return Trace(Pass, []), 0;
    }
    var steps := [Resolve(p.reflectedType)];
    var retryCount := 0;
    var value: Option<Obj>;
    while true
      invariant 0 <= retryCount <= MaxRetryCount
      invariant forall j :: 0 <= j < retryCount ==> same(draw(j), initial)
      invariant steps == [Resolve(p.reflectedType)] + Resolutions(p.propertyType, retryCount)
      decreases MaxRetryCount - retryCount
    {
      retryCount := retryCount + 1;
      if retryCount > MaxRetryCount {
        return Trace(Fail(NoUniqueValue), steps), retryCount - 1;
      }
      value := draw(retryCount - 1);
      steps := steps + [Resolve(p.propertyType)];
      assert steps == [Resolve(p.reflectedType)] + Resolutions(p.propertyType, retryCount);
      if !same(value, initial) {
        break;
      }
    }
    var effect := setter(value);
    steps := steps + [Attach, Assign(value), Detach];
    return Trace(SetVerdict(p, effect), steps), retryCount;
  }

  /** A setter that raises the event once with the property's name passes;
      raising it twice, not at all, or with another name fails. */
  lemma SetVerdictCases(p: PropertyDesc, other: string)
    requires other != p.name
    ensures SetVerdict(p, Raised([Some(p.name)])) == Pass
    ensures SetVerdict(p, Raised([Some(p.name), Some(p.name)])) == Fail(NotRaised(p.name))
    ensures SetVerdict(p, Raised([])) == Fail(NotRaised(p.name))
    ensures SetVerdict(p, Raised([Some(other)])) == Fail(NotRaised(p.name))
    ensures SetVerdict(p, Raised([None])) == Fail(NotRaised(p.name))
  {
  }
}
