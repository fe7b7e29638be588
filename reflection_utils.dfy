/** The queries of the reflection library the classifier delegates to:
    the closure of a type's supertypes and the per-type and closure-wide
    member queries, each filtered by a caller-supplied predicate. */
module ReflectionUtils {
  import opened TypeGraph

  /** The type itself together with, transitively, its superclass and all
      the interfaces of every type reached. */
  function AllSuperTypes(t: Type): set<Type>
  {
    var fromSuper := match t.superclass
      case None => {}
      case Some(s) => AllSuperTypes(s);
    var fromInterfaces := set i, a | i in t.interfaces && a in AllSuperTypes(i) :: a;
    {t} + fromSuper + fromInterfaces
  }

  /** The closure holds the type itself. */
  lemma SelfIsSupertype(t: Type)
    ensures t in AllSuperTypes(t)
  {
  }

  /** The closure holds the superclass. */
  lemma SuperclassIsSupertype(t: Type)
    requires t.superclass.Some?
    ensures t.superclass.value in AllSuperTypes(t)
  {
    SelfIsSupertype(t.superclass.value);
  }

  /** The closure holds every direct interface. */
  lemma InterfaceIsSupertype(t: Type, k: nat)
    requires k < |t.interfaces|
    ensures t.interfaces[k] in AllSuperTypes(t)
  {
    SelfIsSupertype(t.interfaces[k]);
  }

  /** Supertype closure is transitive: the supertypes of a supertype are
      supertypes. */
  lemma {:induction false} AllSuperTypesTransitive(t: Type, a: Type)
    requires a in AllSuperTypes(t)
    ensures AllSuperTypes(a) <= AllSuperTypes(t)
    decreases t
  {
    if a != t {
      if t.superclass.Some? && a in AllSuperTypes(t.superclass.value) {
        AllSuperTypesTransitive(t.superclass.value, a);
      } else {
        var i :| i in t.interfaces && a in AllSuperTypes(i);
        AllSuperTypesTransitive(i, a);
      }
    }
  }

  /** The public methods of an interface in the sense the runtime reports
      them for an interface: its own non-private methods and the non-static
      methods it inherits from its superinterfaces. */
  function InterfaceMethods(t: Type): (r: set<Method>)
    ensures forall m | m in t.declaredMethods && !m.isPrivate :: m in r
  {
    (set m | m in t.declaredMethods && !m.isPrivate)
    + (set i, m | i in t.interfaces && m in InterfaceMethods(i) && !m.isStatic :: m)
  }

  /** The methods the library's per-type query starts from: the public
      methods (inherited ones included) for an interface, the directly
      declared ones for a class. */
  function MethodsOf(t: Type): set<Method>
  {
    if t.kind == Interface then InterfaceMethods(t) else set m | m in t.declaredMethods
  }

  /** getMethods(t, p): the per-type methods that satisfy `p`. */
  function GetMethods(t: Type, p: Method -> bool): (r: set<Method>)
    ensures forall m | m in r :: p(m)
  {
    set m | m in MethodsOf(t) && p(m)
  }

  /** getAllMethods(t, p): the per-type methods of every supertype
      (the type itself included) that satisfy `p`. */
  function GetAllMethods(t: Type, p: Method -> bool): (r: set<Method>)
    ensures forall m | m in r :: p(m)
    ensures GetMethods(t, p) <= r
  {
    set a, m | a in AllSuperTypes(t) && m in MethodsOf(a) && p(m) :: m
  }

  /** getFields(t, p): the directly declared fields that satisfy `p`. */
  function GetFields(t: Type, p: Field -> bool): (r: set<Field>)
    ensures forall f | f in r :: p(f) && f in t.declaredFields
  {
    set f | f in t.declaredFields && p(f)
  }

  /** getAllFields(t, p): the declared fields of every supertype (the type
      itself included) that satisfy `p`. */
  function GetAllFields(t: Type, p: Field -> bool): (r: set<Field>)
    ensures forall f | f in r :: p(f)
    ensures GetFields(t, p) <= r
  {
    set a, f | a in AllSuperTypes(t) && f in a.declaredFields && p(f) :: f
  }

  /** Everything reachable from a supertype is reachable from the type. */
  lemma AllMethodsMonotone(t: Type, a: Type, p: Method -> bool)
    requires a in AllSuperTypes(t)
    ensures GetAllMethods(a, p) <= GetAllMethods(t, p)
  {
    AllSuperTypesTransitive(t, a);
  }

  lemma AllFieldsMonotone(t: Type, a: Type, p: Field -> bool)
    requires a in AllSuperTypes(t)
    ensures GetAllFields(a, p) <= GetAllFields(t, p)
  {
    AllSuperTypesTransitive(t, a);
  }
}
