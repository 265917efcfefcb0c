/** Parameter-targeted specimens: ParameterSpecimenBuilder answers a request
    for one named constructor or method parameter of one declaring type with
    a fixed value; ParameterCustomization adds such a builder to a fixture;
    ParameterAttribute produces such a customization from the parameter of a
    test method it decorates.
 */
module ParameterSpecimens {
  import opened Wrappers
  import opened Clr
  import PV = ParameterValidation

  /** A reflected parameter: the declaring type of its member, its type and
      its name. */
  datatype ParameterInfo = ParameterInfo(declaringType: ClrType, parameterType: ClrType, name: string)

  /** What a specimen builder is asked for: null, a parameter, or any other
      request object (a type, a string, ...). */
  datatype Request = NullRequest | ParameterRequest(parameter: ParameterInfo) | OtherRequest(obj: Obj)

  datatype Specimen = NoSpecimen | SpecimenOf(value: Obj)

  // ParameterSpecimenBuilder

  /** The specimen value is absent (null) when the two-argument constructor
      was used. */
  datatype Builder = Builder(declaringType: ClrType, parameterName: string, specimenValue: Option<Obj>)

  /** The checks both builder constructors start with, in order. */
  function TargetChecks(declaringType: Option<ClrType>, parameterName: Option<string>): (r: PV.Check)
    ensures r.Pass? <==> declaringType.Some? && parameterName.Some? && parameterName.value != ""
    ensures declaringType.None? ==> r == Fail(PV.ArgumentNull("declaringType"))
    ensures declaringType.Some? && parameterName.None? ==> r == Fail(PV.ArgumentNull("parameterName"))
    ensures declaringType.Some? && parameterName == Some("") ==> r == Fail(PV.Argument("parameterName"))
  {
    var typeCheck := PV.IsNotNull(declaringType, "declaringType");
    var nameNull := PV.IsNotNull(parameterName, "parameterName");
    var nameEmpty := PV.IsNotEmpty(parameterName, "parameterName");
    if typeCheck.Fail? then typeCheck
    else if nameNull.Fail? then nameNull
    else nameEmpty
  }

  function NewBuilder(declaringType: Option<ClrType>, parameterName: Option<string>): (r: Result<Builder, PV.GuardError>)
    ensures r.Success? <==> TargetChecks(declaringType, parameterName).Pass?
    ensures r.Failure? ==> Fail(r.error) == TargetChecks(declaringType, parameterName)
    ensures r.Success? ==> r.value == Builder(declaringType.value, parameterName.value, None)
  {
    var check := TargetChecks(declaringType, parameterName);
    if check.Fail? then Failure(check.error) else Success(Builder(declaringType.value, parameterName.value, None))
  }

  /** The three-argument constructor also rejects a null specimen value, last. */
  function NewBuilderWithValue(declaringType: Option<ClrType>, parameterName: Option<string>, specimenValue: Option<Obj>)
    : (r: Result<Builder, PV.GuardError>)
    ensures r.Success? <==> TargetChecks(declaringType, parameterName).Pass? && specimenValue.Some?
    ensures TargetChecks(declaringType, parameterName).Fail? ==> Fail(r.error) == TargetChecks(declaringType, parameterName)
    ensures TargetChecks(declaringType, parameterName).Pass? && specimenValue.None? ==> r == Failure(PV.ArgumentNull("specimenValue"))
    ensures r.Success? ==> r.value == Builder(declaringType.value, parameterName.value, specimenValue)
  {
    var check := TargetChecks(declaringType, parameterName);
    var valueCheck := PV.IsNotNull(specimenValue, "specimenValue");
    if check.Fail? then Failure(check.error)
    else if valueCheck.Fail? then Failure(valueCheck.error)
    else Success(Builder(declaringType.value, parameterName.value, specimenValue))
  }

  /** Create: the stored value for a parameter request whose declaring type,
      parameter type and name all fit; NoSpecimen for anything else. The
      specimen context is not consulted. */
  function Create(b: Builder, request: Request, assignable: Assignability): (s: Specimen)
    ensures s.SpecimenOf? <==>
      && request.ParameterRequest?
      && request.parameter.declaringType == b.declaringType
      && b.specimenValue.Some? && assignable(request.parameter.parameterType, b.specimenValue.value.runtimeType)
      && request.parameter.name == b.parameterName
    ensures s.SpecimenOf? ==> b.specimenValue == Some(s.value)
  {
    match request
    case ParameterRequest(p) =>
      if && p.declaringType == b.declaringType
         && IsInstanceOfType(assignable, p.parameterType, b.specimenValue)
         && p.name == b.parameterName
      then SpecimenOf(b.specimenValue.value)
      else NoSpecimen
    case _ => NoSpecimen
  }

  /** A builder made without a specimen value never yields a specimen: the
      instance-of test is false for null. */
  lemma ValuelessBuilderNeverMatches(declaringType: ClrType, parameterName: string, request: Request, assignable: Assignability)
    requires NewBuilder(Some(declaringType), Some(parameterName)).Success?
    ensures Create(NewBuilder(Some(declaringType), Some(parameterName)).value, request, assignable) == NoSpecimen
  {
  }

  /** Changing any one of declaring type, name or value fit away from a full
      match loses the specimen. */
  lemma EveryConditionIsNeeded(b: Builder, p: ParameterInfo, assignable: Assignability, otherType: ClrType, otherName: string)
    requires Create(b, ParameterRequest(p), assignable).SpecimenOf?
    requires otherType != b.declaringType && otherName != b.parameterName
    ensures Create(b, ParameterRequest(p.(declaringType := otherType)), assignable) == NoSpecimen
    ensures Create(b, ParameterRequest(p.(name := otherName)), assignable) == NoSpecimen
    ensures Create(b, ParameterRequest(p), (t, u) => false) == NoSpecimen
    ensures Create(b, ParameterRequest(p), assignable) == SpecimenOf(b.specimenValue.value)
  {
  }

  // ParameterCustomization

  datatype Customization = Customization(declaringType: ClrType, parameterName: string, specimenValue: Option<Obj>)

  function NewCustomization(declaringType: Option<ClrType>, parameterName: Option<string>): (r: Result<Customization, PV.GuardError>)
    ensures r.Success? <==> TargetChecks(declaringType, parameterName).Pass?
    ensures r.Failure? ==> Fail(r.error) == TargetChecks(declaringType, parameterName)
    ensures r.Success? ==> r.value == Customization(declaringType.value, parameterName.value, None)
  {
    var check := TargetChecks(declaringType, parameterName);
    if check.Fail? then Failure(check.error) else Success(Customization(declaringType.value, parameterName.value, None))
  }

  function NewCustomizationWithValue(declaringType: Option<ClrType>, parameterName: Option<string>, specimenValue: Option<Obj>)
    : (r: Result<Customization, PV.GuardError>)
    ensures r.Success? <==> TargetChecks(declaringType, parameterName).Pass? && specimenValue.Some?
    ensures TargetChecks(declaringType, parameterName).Fail? ==> Fail(r.error) == TargetChecks(declaringType, parameterName)
    ensures TargetChecks(declaringType, parameterName).Pass? && specimenValue.None? ==> r == Failure(PV.ArgumentNull("specimenValue"))
    ensures r.Success? ==> r.value == Customization(declaringType.value, parameterName.value, specimenValue)
  {
    var check := TargetChecks(declaringType, parameterName);
    var valueCheck := PV.IsNotNull(specimenValue, "specimenValue");
    if check.Fail? then Failure(check.error)
    else if valueCheck.Fail? then Failure(valueCheck.error)
    else Success(Customization(declaringType.value, parameterName.value, specimenValue))
  }

  /** A fixture's customization list, holding parameter builders among other
      builders, and everything else about the fixture. */
  datatype FixtureBuilder = ParameterBuilder(builder: Builder) | OtherBuilder(handle: Handle)
  datatype Fixture = Fixture(customizations: seq<FixtureBuilder>, rest: Handle)

  /** Customize: appends one builder made from the customization's fields,
      through the constructor that matches whether a value is present; an
      error of that constructor propagates. */
  function Customize(c: Customization, fixture: Option<Fixture>): (r: Result<Fixture, PV.GuardError>)
    ensures fixture.None? ==> r == Failure(PV.ArgumentNull("fixture"))
    ensures fixture.Some? && r.Success? ==>
      && r.value.rest == fixture.value.rest
      && |r.value.customizations| == |fixture.value.customizations| + 1
      && r.value.customizations[..|fixture.value.customizations|] == fixture.value.customizations
      && r.value.customizations[|fixture.value.customizations|] == ParameterBuilder(Builder(c.declaringType, c.parameterName, c.specimenValue))
  {
    var check := PV.IsNotNull(fixture, "fixture");
    if check.Fail? then Failure(check.error)
    else
      var builder :=
        if c.specimenValue.None? then NewBuilder(Some(c.declaringType), Some(c.parameterName))
        else NewBuilderWithValue(Some(c.declaringType), Some(c.parameterName), c.specimenValue);
      if builder.Failure? then Failure(builder.error)
      else
        var f := fixture.value;
        Success(Fixture(f.customizations + [ParameterBuilder(builder.value)], f.rest))
  }

  /** A customization that came out of either constructor is never rejected
      by Customize once a fixture is given. */
  lemma ConstructedCustomizationAlwaysCustomizes(declaringType: Option<ClrType>, parameterName: Option<string>,
                                                 specimenValue: Option<Obj>, withValue: bool, fixture: Fixture)
    ensures var c := if withValue then NewCustomizationWithValue(declaringType, parameterName, specimenValue)
                     else NewCustomization(declaringType, parameterName);
      c.Success? ==> Customize(c.value, Some(fixture)).Success?
  {
  }

  // ParameterAttribute

  datatype Attribute = Attribute(parameterName: string, specimenValue: Option<Obj>)

  function NewAttribute(parameterName: Option<string>): (r: Result<Attribute, PV.GuardError>)
    ensures r.Success? <==> parameterName.Some? && parameterName.value != ""
    ensures parameterName.None? ==> r == Failure(PV.ArgumentNull("parameterName"))
    ensures parameterName == Some("") ==> r == Failure(PV.Argument("parameterName"))
    ensures r.Success? ==> r.value == Attribute(parameterName.value, None)
  {
    var nameNull := PV.IsNotNull(parameterName, "parameterName");
    var nameEmpty := PV.IsNotEmpty(parameterName, "parameterName");
    if nameNull.Fail? then Failure(nameNull.error)
    else if nameEmpty.Fail? then Failure(nameEmpty.error)
    else Success(Attribute(parameterName.value, None))
  }

  function NewAttributeWithValue(parameterName: Option<string>, specimenValue: Option<Obj>): (r: Result<Attribute, PV.GuardError>)
    ensures r.Success? <==> parameterName.Some? && parameterName.value != "" && specimenValue.Some?
    ensures parameterName.None? ==> r == Failure(PV.ArgumentNull("parameterName"))
    ensures parameterName == Some("") ==> r == Failure(PV.Argument("parameterName"))
    ensures parameterName.Some? && parameterName.value != "" && specimenValue.None? ==> r == Failure(PV.ArgumentNull("specimenValue"))
    ensures r.Success? ==> r.value == Attribute(parameterName.value, specimenValue)
  {
    var nameNull := PV.IsNotNull(parameterName, "parameterName");
    var nameEmpty := PV.IsNotEmpty(parameterName, "parameterName");
    var valueCheck := PV.IsNotNull(specimenValue, "specimenValue");
    if nameNull.Fail? then Failure(nameNull.error)
    else if nameEmpty.Fail? then Failure(nameEmpty.error)
    else if valueCheck.Fail? then Failure(valueCheck.error)
    else Success(Attribute(parameterName.value, specimenValue))
  }

  /** GetCustomization: a customization targeting the decorated parameter's
      type (as the declaring type of the parameter to fill), with the
      attribute's name and value; an error of the customization constructor
      propagates. */
  function GetCustomization(a: Attribute, parameter: Option<ParameterInfo>): (r: Result<Customization, PV.GuardError>)
    ensures parameter.None? ==> r == Failure(PV.ArgumentNull("parameter"))
    ensures r.Success? ==> r.value == Customization(parameter.value.parameterType, a.parameterName, a.specimenValue)
  {
    var check := PV.IsNotNull(parameter, "parameter");
    if check.Fail? then Failure(check.error)
    else if a.specimenValue.None? then NewCustomization(Some(parameter.value.parameterType), Some(a.parameterName))
    else NewCustomizationWithValue(Some(parameter.value.parameterType), Some(a.parameterName), a.specimenValue)
  }

  /** From attribute to specimen: an attribute with a value, applied to a
      test parameter of type T, makes a fixture hand out that value for
      exactly the parameters of T's members that have the attribute's name
      and whose type accepts the value; an attribute without a value makes
      a fixture whose new builder hands out nothing. */
  lemma {:induction false} AttributeTargetsParameterOfDecoratedType(
    a: Attribute, decorated: ParameterInfo, fixture: Fixture, request: ParameterInfo, assignable: Assignability)
    requires a.parameterName != ""
    ensures GetCustomization(a, Some(decorated)).Success?
    ensures var f := Customize(GetCustomization(a, Some(decorated)).value, Some(fixture));
      && f.Success?
      && var added := f.value.customizations[|fixture.customizations|].builder;
         && (a.specimenValue.None? ==> Create(added, ParameterRequest(request), assignable) == NoSpecimen)
         && (Create(added, ParameterRequest(request), assignable).SpecimenOf? <==>
               && request.declaringType == decorated.parameterType
               && request.name == a.parameterName
               && a.specimenValue.Some?
               && assignable(request.parameterType, a.specimenValue.value.runtimeType))
  {
    var c := GetCustomization(a, Some(decorated));
    assert c.Success?;
    var f := Customize(c.value, Some(fixture));
    assert f.Success?;
  }

  /** An attribute from either constructor always yields a customization. */
  lemma ConstructedAttributeAlwaysCustomizes(parameterName: Option<string>, specimenValue: Option<Obj>,
                                             withValue: bool, parameter: ParameterInfo)
    ensures var a := if withValue then NewAttributeWithValue(parameterName, specimenValue) else NewAttribute(parameterName);
      a.Success? ==> GetCustomization(a.value, Some(parameter)).Success?
  {
  }
}
