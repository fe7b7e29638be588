/** The structural metadata the analysis reads: types with their kind,
    optional superclass, direct interfaces and declared members, as the
    host runtime's reflection reports them. A `Type` value holds its whole
    ancestry, so the superclass/interface graph is acyclic by construction. */
module TypeGraph {

  datatype Option<+T> = None | Some(value: T)

  datatype Kind = Class | Interface

  /** A reflected method. Two distinct values may share name and parameter
      types (a method redeclared in a subtype, or one with another return
      type): reflection reports them as different objects. */
  datatype Method = Method(
    declaringClass: string,
    name: string,
    parameterTypes: seq<string>,
    returnType: string,
    isAbstract: bool,
    isPrivate: bool,
    isStatic: bool)

  /** A reflected field. */
  datatype Field = Field(
    declaringClass: string,
    name: string,
    fieldType: string,
    isPrivate: bool,
    isStatic: bool)

  /** A class or interface: `declaredMethods` and `declaredFields` are the
      members declared directly on it, in the order reflection lists them. */
  datatype Type = Type(
    name: string,
    kind: Kind,
    superclass: Option<Type>,
    interfaces: seq<Type>,
    declaredMethods: seq<Method>,
    declaredFields: seq<Field>)
}
