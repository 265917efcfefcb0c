/** Abstract stand-ins for the .NET runtime facts the test extensions read
    through reflection: types, objects and collaborator references.
 */
module Clr {
  import opened Wrappers

  /** A reflected type, described only as far as the extensions inspect it. */
  datatype ClrType =
    | ObjectType                       // System.Object
    | ClassType(name: string)          // any other reference type
    | InterfaceType(name: string)
    | StructType(name: string)         // a non-nullable value type
    | NullableType(underlying: ClrType)  // System.Nullable<T>

  const BoolType: ClrType := StructType("Boolean")
  const ArgumentNullExceptionType: ClrType := ClassType("ArgumentNullException")

  /** Type.IsClass: object and every other reference type that is not an interface. */
  predicate IsClass(t: ClrType) {
    t.ObjectType? || t.ClassType?
  }

  /** Type.IsInterface */
  predicate IsInterface(t: ClrType) {
    t.InterfaceType?
  }

  /** Nullable.GetUnderlyingType: the T of a Nullable<T>, null for any other type. */
  function NullableUnderlying(t: ClrType): Option<ClrType> {
    match t
    case NullableType(u) => Some(u)
    case _ => None
  }

  /** Type.Name, as used in failure messages. */
  function Name(t: ClrType): string {
    match t
    case ObjectType => "Object"
    case ClassType(n) => n
    case InterfaceType(n) => n
    case StructType(n) => n
    case NullableType(_) => "Nullable`1"
  }

  /** A non-null runtime object: an identity and its runtime type (GetType()). */
  datatype Obj = Obj(id: nat, runtimeType: ClrType)

  /** A reference to a collaborator (specimen builder, guard clause extensions,
      fixture, comparer) that the extensions store and pass on but never inspect. */
  datatype Handle = Handle(id: nat)

  /** The runtime's assignability relation: Assignable(t, u) holds when an object
      whose runtime type is u is an instance of t. Reflection is not modelled, so
      every operation that needs it receives the relation as a parameter. */
  type Assignability = (ClrType, ClrType) -> bool

  /** Type.IsInstanceOfType: false for null, otherwise assignability of the runtime type. */
  predicate IsInstanceOfType(assignable: Assignability, t: ClrType, v: Option<Obj>) {
    v.Some? && assignable(t, v.value.runtimeType)
  }
}
