/** The member classifier: for one type, the depth of its superclass chain,
    its accessible, declared, overriding, private and open methods and its
    accessible, declared-for-inheritance, private and declared fields.
    Method identity is name plus parameter types; field identity is name. */
module ReflectionHelper {
  import opened TypeGraph
  import opened KeyedSets
  import ReflectionUtils

  /** The identity of a method for overriding and shadowing: return type
      and declaring class do not take part. */
  datatype Signature = Signature(name: string, parameterTypes: seq<string>)

  function Sig(m: Method): Signature
  {
    Signature(m.name, m.parameterTypes)
  }

  /** The identity of a field. */
  function FieldName(f: Field): string
  {
    f.name
  }

  /** Methods that take part in inheritance: not abstract, private or static. */
  predicate MethodModifiersPredicate(m: Method)
  {
    !m.isAbstract && !m.isPrivate && !m.isStatic
  }

  /** Fields that take part in inheritance: not private or static. */
  predicate FieldModifiersPredicate(f: Field)
  {
    !f.isPrivate && !f.isStatic
  }

  /** Identity of two possibly absent methods: an absent method equals
      nothing; the same object, or the same name and parameter types, is
      equal. */
  function EqualMethods(m1: Option<Method>, m2: Option<Method>): (r: bool)
    ensures r <==> m1.Some? && m2.Some? && Sig(m1.value) == Sig(m2.value)
  {
    if m1.None? || m2.None? then false
    else if m1 == m2 then true
    else m1.value.name == m2.value.name && m1.value.parameterTypes == m2.value.parameterTypes
  }

  /** Identity of two possibly absent fields: the same object, or the same
      name. */
  function EqualFields(f1: Option<Field>, f2: Option<Field>): (r: bool)
    ensures r <==> f1.Some? && f2.Some? && FieldName(f1.value) == FieldName(f2.value)
  {
    if f1.None? || f2.None? then false
    else if f1 == f2 then true
    else f1.value.name == f2.value.name
  }

  /** Both identities are false on an absent member and an equivalence on
      present ones. */
  lemma EqualMethodsIsEquivalence(a: Method, b: Method, c: Method)
    ensures !EqualMethods(None, Some(a)) && !EqualMethods(Some(a), None)
    ensures EqualMethods(Some(a), Some(a))
    ensures EqualMethods(Some(a), Some(b)) == EqualMethods(Some(b), Some(a))
    ensures EqualMethods(Some(a), Some(b)) && EqualMethods(Some(b), Some(c)) ==> EqualMethods(Some(a), Some(c))
  {
  }

  lemma EqualFieldsIsEquivalence(a: Field, b: Field, c: Field)
    ensures !EqualFields(None, Some(a)) && !EqualFields(Some(a), None)
    ensures EqualFields(Some(a), Some(a))
    ensures EqualFields(Some(a), Some(b)) == EqualFields(Some(b), Some(a))
    ensures EqualFields(Some(a), Some(b)) && EqualFields(Some(b), Some(c)) ==> EqualFields(Some(a), Some(c))
  {
  }

  // ---------------------------------------------------------------------
  // Depth of inheritance tree

  /** The number of superclass links from `t` up to the type that has none. */
  function SuperclassSteps(t: Type): nat
  {
    match t.superclass
    case None => 0
    case Some(s) => 1 + SuperclassSteps(s)
  }

  /** -1 for an interface; otherwise one less than the number of superclass
      links, so the root class gets -1 and a class directly under it 0. */
  method CalculateDepthOfInheritanceTree(clazz: Type) returns (depth: int)
    ensures clazz.kind == Interface ==> depth == -1
    ensures clazz.kind == Class ==> depth == SuperclassSteps(clazz) - 1
  {
    if clazz.kind == Interface {
      return -1;
    }
    var c := clazz;
    depth := 0;
    while c.superclass.Some?
      invariant depth + SuperclassSteps(c) == SuperclassSteps(clazz)
      decreases SuperclassSteps(c)
    {
      c := c.superclass.value;
      depth := depth + 1;
    }
    return depth - 1;
  }

  // ---------------------------------------------------------------------
  // Methods

  /** Every inheritable method of every supertype, the type itself included. */
  function AllMethodsFromSupertypes(clazz: Type): set<Method>
  {
    ReflectionUtils.GetAllMethods(clazz, MethodModifiersPredicate)
  }

  /** The distinct identities among the accessible methods. */
  function AccessibleMethodSignatures(clazz: Type): set<Signature>
  {
    Image(AllMethodsFromSupertypes(clazz), Sig)
  }

  /** One representative per identity of the inheritable methods of the
      supertype closure. Which representative is kept is not determined;
      how many are kept is. */
  method GetAccessibleMethods(clazz: Type) returns (accessibleMethods: set<Method>)
    ensures accessibleMethods <= AllMethodsFromSupertypes(clazz)
    ensures forall m | m in accessibleMethods :: MethodModifiersPredicate(m)
    ensures KeyInjective(accessibleMethods, Sig)
    ensures Image(accessibleMethods, Sig) == AccessibleMethodSignatures(clazz)
    ensures |accessibleMethods| == |AccessibleMethodSignatures(clazz)|
  {
    var allMethodsFromSupertypes := ReflectionUtils.GetAllMethods(clazz, MethodModifiersPredicate);
    accessibleMethods := KeepOneMethodPerSignature(allMethodsFromSupertypes);
  }

  /** A set with the accessible identities holds, for every inheritable
      method of the closure, an identity-equal representative. */
  lemma AccessibleMethodsRepresentAll(clazz: Type, accessibleMethods: set<Method>)
    requires Image(accessibleMethods, Sig) == AccessibleMethodSignatures(clazz)
    ensures forall m | m in AllMethodsFromSupertypes(clazz) ::
      exists a | a in accessibleMethods :: EqualMethods(Some(m), Some(a))
  {
    forall m | m in AllMethodsFromSupertypes(clazz)
      ensures exists a | a in accessibleMethods :: EqualMethods(Some(m), Some(a))
    {
      RepresentativeOf(accessibleMethods, AllMethodsFromSupertypes(clazz), m, Sig);
    }
  }

  /** The loop of the accessible-method query: a method is kept when no kept
      method has its identity yet. */
  method KeepOneMethodPerSignature(allMethods: set<Method>) returns (kept: set<Method>)
    ensures kept <= allMethods
    ensures KeyInjective(kept, Sig)
    ensures forall m | m in allMethods :: exists a | a in kept :: EqualMethods(Some(m), Some(a))
    ensures Image(kept, Sig) == Image(allMethods, Sig)
    ensures |kept| == |Image(allMethods, Sig)|
  {
    kept := {};
    var rest := allMethods;
    while rest != {}
      invariant rest <= allMethods
      invariant kept <= allMethods - rest
      invariant KeyInjective(kept, Sig)
      invariant Image(kept, Sig) == Image(allMethods - rest, Sig)
      decreases |rest|
    {
      var m1 :| m1 in rest;
      ghost var seen := allMethods - rest;
      KeepIfNewKey(kept, seen, m1, Sig);
      NewKeyIff(kept, m1, Sig);
      if forall m2 | m2 in kept :: !EqualMethods(Some(m1), Some(m2)) {
        kept := kept + {m1};
      }
      assert allMethods - (rest - {m1}) == seen + {m1};
      rest := rest - {m1};
    }
    forall m | m in allMethods
      ensures exists a | a in kept :: EqualMethods(Some(m), Some(a))
    {
      RepresentativeOf(kept, allMethods, m, Sig);
    }
    InjectiveImageCard(kept, Sig);
  }

  /** The set of methods a type's declaration lists. */
  function OwnMethods(clazz: Type): set<Method>
  {
    set m | m in clazz.declaredMethods
  }

  /** The inheritable methods the type itself declares. For an interface the
      library query also returns inherited methods, so the result is cut
      back to the interface's own declaration list. */
  function GetDeclaredMethods(clazz: Type): (r: set<Method>)
    ensures r <= OwnMethods(clazz)
    ensures forall m | m in r :: MethodModifiersPredicate(m)
  {
    var declaredMethods := ReflectionUtils.GetMethods(clazz, MethodModifiersPredicate);
    if clazz.kind == Interface then
      set m | m in clazz.declaredMethods && m in declaredMethods
    else
      declaredMethods
  }

  /** The identities accessible on the superclass, if there is one. */
  function SuperclassSignatures(clazz: Type): set<Signature>
  {
    match clazz.superclass
    case None => {}
    case Some(s) => AccessibleMethodSignatures(s)
  }

  /** The identities accessible on the superclass or on one of the first
      `n` direct interfaces. */
  function SupertypeSignaturesUpTo(clazz: Type, n: nat): set<Signature>
    requires n <= |clazz.interfaces|
  {
    if n == 0 then SuperclassSignatures(clazz)
    else SupertypeSignaturesUpTo(clazz, n - 1) + AccessibleMethodSignatures(clazz.interfaces[n - 1])
  }

  /** The identities accessible on the superclass or on a direct interface. */
  function SupertypeSignatures(clazz: Type): set<Signature>
  {
    SupertypeSignaturesUpTo(clazz, |clazz.interfaces|)
  }

  /** The methods of `methods` whose identity is among `signatures`. */
  function WithSignatureIn(methods: set<Method>, signatures: set<Signature>): set<Method>
  {
    set m | m in methods && Sig(m) in signatures
  }

  lemma NoSignatureNoMatch(methods: set<Method>)
    ensures WithSignatureIn(methods, {}) == {}
  {
  }

  /** Reference definition: the declared methods whose identity is
      accessible on a direct supertype. */
  function InheritedAndOverriddenMethods(clazz: Type): set<Method>
  {
    WithSignatureIn(GetDeclaredMethods(clazz), SupertypeSignatures(clazz))
  }

  /** The any-match filter: the methods of `methods` equal to some method of
      `candidates` are those whose identity is among the candidates'. */
  function MatchingMethods(methods: set<Method>, candidates: set<Method>): (r: set<Method>)
    ensures r == WithSignatureIn(methods, Image(candidates, Sig))
  {
    set m1 | m1 in methods && exists m2 | m2 in candidates :: EqualMethods(Some(m1), Some(m2))
  }

  /** The declared methods that match, by identity, an accessible method of
      the superclass or of a direct interface; nothing when the type has no
      supertype at all. */
  method GetInheritedAndOverriddenMethods(clazz: Type) returns (r: set<Method>)
    ensures r == InheritedAndOverriddenMethods(clazz)
  {
    if clazz.superclass.None? && |clazz.interfaces| == 0 {
      NoSignatureNoMatch(GetDeclaredMethods(clazz));
      return {};
    }
    var allMethodsFromSupertypes := CollectSupertypeMethods(clazz);
    var declaredMethods := GetDeclaredMethods(clazz);
    r := MatchingMethods(declaredMethods, allMethodsFromSupertypes);
  }

  /** The collection step of the overriding query: the accessible methods of
      the superclass, then those of each direct interface in order. */
  method CollectSupertypeMethods(clazz: Type) returns (allMethodsFromSupertypes: set<Method>)
    ensures Image(allMethodsFromSupertypes, Sig) == SupertypeSignatures(clazz)
  {
    allMethodsFromSupertypes := CollectSuperclassMethods(clazz);
    for i := 0 to |clazz.interfaces|
      invariant Image(allMethodsFromSupertypes, Sig) == SupertypeSignaturesUpTo(clazz, i)
    {
      var inherited := GetAccessibleMethods(clazz.interfaces[i]);
      ImageUnion(allMethodsFromSupertypes, inherited, Sig);
      allMethodsFromSupertypes := allMethodsFromSupertypes + inherited;
    }
  }

  /** The first collection step: the accessible methods of the superclass,
      nothing when there is none. */
  method CollectSuperclassMethods(clazz: Type) returns (fromSuperclass: set<Method>)
    ensures Image(fromSuperclass, Sig) == SuperclassSignatures(clazz)
  {
    fromSuperclass := {};
    if clazz.superclass.Some? {
      fromSuperclass := GetAccessibleMethods(clazz.superclass.value);
    } else {
      ImageEmpty(Sig);
    }
  }

  /** The methods the type declares with private visibility. */
  function GetPrivateMethods(clazz: Type): (r: set<Method>)
    ensures r <= OwnMethods(clazz)
    ensures r !! GetDeclaredMethods(clazz)
  {
    set m | m in clazz.declaredMethods && m.isPrivate
  }

  /** The methods the type declares that are neither abstract nor private;
      static ones are open too. */
  function GetOpenMethods(clazz: Type): (r: set<Method>)
    ensures r <= OwnMethods(clazz)
    ensures r !! GetPrivateMethods(clazz)
    ensures GetDeclaredMethods(clazz) <= r
    ensures forall m | m in clazz.declaredMethods && m.isStatic && !m.isPrivate && !m.isAbstract :: m in r
  {
    set m | m in clazz.declaredMethods && !m.isAbstract && !m.isPrivate
  }

  // ---------------------------------------------------------------------
  // Fields

  /** Every inheritable field of every supertype, the type itself included. */
  function AllFieldsFromSupertypes(clazz: Type): set<Field>
  {
    ReflectionUtils.GetAllFields(clazz, FieldModifiersPredicate)
  }

  /** The distinct names among the accessible fields. */
  function AccessibleFieldNames(clazz: Type): set<string>
  {
    Image(AllFieldsFromSupertypes(clazz), FieldName)
  }

  /** One representative per name of the inheritable fields of the
      supertype closure. */
  method GetAccessibleFields(clazz: Type) returns (accessibleFields: set<Field>)
    ensures accessibleFields <= AllFieldsFromSupertypes(clazz)
    ensures forall f | f in accessibleFields :: FieldModifiersPredicate(f)
    ensures KeyInjective(accessibleFields, FieldName)
    ensures Image(accessibleFields, FieldName) == AccessibleFieldNames(clazz)
    ensures |accessibleFields| == |AccessibleFieldNames(clazz)|
  {
    var allFieldsFromSupertypes := ReflectionUtils.GetAllFields(clazz, FieldModifiersPredicate);
    accessibleFields := KeepOneFieldPerName(allFieldsFromSupertypes);
  }

  /** A set with the accessible names holds, for every inheritable field of
      the closure, a field of the same name. */
  lemma AccessibleFieldsRepresentAll(clazz: Type, accessibleFields: set<Field>)
    requires Image(accessibleFields, FieldName) == AccessibleFieldNames(clazz)
    ensures forall f | f in AllFieldsFromSupertypes(clazz) ::
      exists a | a in accessibleFields :: EqualFields(Some(f), Some(a))
  {
    forall f | f in AllFieldsFromSupertypes(clazz)
      ensures exists a | a in accessibleFields :: EqualFields(Some(f), Some(a))
    {
      RepresentativeOf(accessibleFields, AllFieldsFromSupertypes(clazz), f, FieldName);
    }
  }

  /** The loop of the accessible-field query: a field is kept when no kept
      field has its name yet. */
  method KeepOneFieldPerName(allFields: set<Field>) returns (kept: set<Field>)
    ensures kept <= allFields
    ensures KeyInjective(kept, FieldName)
    ensures forall f | f in allFields :: exists a | a in kept :: EqualFields(Some(f), Some(a))
    ensures Image(kept, FieldName) == Image(allFields, FieldName)
    ensures |kept| == |Image(allFields, FieldName)|
  {
    kept := {};
    var rest := allFields;
    while rest != {}
      invariant rest <= allFields
      invariant kept <= allFields - rest
      invariant KeyInjective(kept, FieldName)
      invariant Image(kept, FieldName) == Image(allFields - rest, FieldName)
      decreases |rest|
    {
      var f1 :| f1 in rest;
      ghost var seen := allFields - rest;
      KeepIfNewKey(kept, seen, f1, FieldName);
      NewKeyIff(kept, f1, FieldName);
      if forall f2 | f2 in kept :: !EqualFields(Some(f1), Some(f2)) {
        kept := kept + {f1};
      }
      assert allFields - (rest - {f1}) == seen + {f1};
      rest := rest - {f1};
    }
    forall f | f in allFields
      ensures exists a | a in kept :: EqualFields(Some(f), Some(a))
    {
      RepresentativeOf(kept, allFields, f, FieldName);
    }
    InjectiveImageCard(kept, FieldName);
  }

  /** The set of fields a type's declaration lists. */
  function OwnFields(clazz: Type): set<Field>
  {
    set f | f in clazz.declaredFields
  }

  /** The inheritable fields the type itself declares. */
  function GetDeclaredForInheritanceFields(clazz: Type): (r: set<Field>)
    ensures r <= OwnFields(clazz)
    ensures forall f | f in r :: FieldModifiersPredicate(f)
  {
    ReflectionUtils.GetFields(clazz, FieldModifiersPredicate)
  }

  /** The fields the type declares with private visibility. */
  function GetPrivateFields(clazz: Type): (r: set<Field>)
    ensures r <= OwnFields(clazz)
    ensures r !! GetDeclaredForInheritanceFields(clazz)
  {
    set f | f in clazz.declaredFields && f.isPrivate
  }

  /** Every field a class declares; nothing for an interface. */
  function GetAllDeclaredFields(clazz: Type): (r: set<Field>)
    ensures clazz.kind == Interface ==> r == {}
    ensures clazz.kind == Class ==> r == OwnFields(clazz)
    ensures clazz.kind == Class ==> GetPrivateFields(clazz) <= r && GetDeclaredForInheritanceFields(clazz) <= r
  {
    if clazz.kind == Interface then {} else set f | f in clazz.declaredFields
  }

  // ---------------------------------------------------------------------
  // Properties

  /** For both kinds the declared set is the type's own inheritable
      methods: cutting an interface's query back to its own list removes
      exactly the inherited ones. */
  lemma DeclaredMethodsAreOwnFiltered(clazz: Type)
    ensures GetDeclaredMethods(clazz) == set m | m in clazz.declaredMethods && MethodModifiersPredicate(m)
  {
  }

  /** A type's declared methods are among its accessible identities. */
  lemma DeclaredSignaturesAreAccessible(clazz: Type)
    ensures Image(GetDeclaredMethods(clazz), Sig) <= AccessibleMethodSignatures(clazz)
  {
    assert GetDeclaredMethods(clazz) <= AllMethodsFromSupertypes(clazz);
  }

  /** The identities of the first `n` direct supertypes are accessible on
      the type itself. */
  lemma {:induction false} SupertypeSignaturesUpToAccessible(clazz: Type, n: nat)
    requires n <= |clazz.interfaces|
    ensures SupertypeSignaturesUpTo(clazz, n) <= AccessibleMethodSignatures(clazz)
  {
    if n == 0 {
      if clazz.superclass.Some? {
        ReflectionUtils.SuperclassIsSupertype(clazz);
        ReflectionUtils.AllMethodsMonotone(clazz, clazz.superclass.value, MethodModifiersPredicate);
      }
    } else {
      SupertypeSignaturesUpToAccessible(clazz, n - 1);
      ReflectionUtils.InterfaceIsSupertype(clazz, n - 1);
      ReflectionUtils.AllMethodsMonotone(clazz, clazz.interfaces[n - 1], MethodModifiersPredicate);
    }
  }

  /** The overriding methods are declared methods, none when the type has
      no supertype, and their identities are accessible on the type. */
  lemma InheritedAndOverriddenAreDeclared(clazz: Type)
    ensures InheritedAndOverriddenMethods(clazz) <= GetDeclaredMethods(clazz)
    ensures clazz.superclass.None? && |clazz.interfaces| == 0 ==> InheritedAndOverriddenMethods(clazz) == {}
    ensures Image(InheritedAndOverriddenMethods(clazz), Sig) <= AccessibleMethodSignatures(clazz)
  {
    SupertypeSignaturesUpToAccessible(clazz, |clazz.interfaces|);
    if clazz.superclass.None? && |clazz.interfaces| == 0 {
      NoSignatureNoMatch(GetDeclaredMethods(clazz));
    }
  }

  /** An identity among the first `n` direct supertypes is accessible on
      the superclass or on one of those interfaces. */
  lemma {:induction false} SupertypeSignatureSource(clazz: Type, n: nat, s: Signature)
    requires n <= |clazz.interfaces| && s in SupertypeSignaturesUpTo(clazz, n)
    ensures (clazz.superclass.Some? && s in AccessibleMethodSignatures(clazz.superclass.value))
         || (exists k | 0 <= k < n :: s in AccessibleMethodSignatures(clazz.interfaces[k]))
  {
    if n > 0 {
      var k := n - 1;
      if s in SupertypeSignaturesUpTo(clazz, k) {
        SupertypeSignatureSource(clazz, k, s);
      } else {
        assert s in AccessibleMethodSignatures(clazz.interfaces[k]);
      }
    }
  }

  /** Each overriding method matches, by identity, an accessible method of
      the superclass or of a direct interface. */
  lemma OverriddenMethodHasOrigin(clazz: Type, m: Method)
    requires m in InheritedAndOverriddenMethods(clazz)
    ensures m in GetDeclaredMethods(clazz)
    ensures (clazz.superclass.Some? &&
             exists a | a in AllMethodsFromSupertypes(clazz.superclass.value) :: EqualMethods(Some(m), Some(a)))
         || (exists k, a | 0 <= k < |clazz.interfaces| && a in AllMethodsFromSupertypes(clazz.interfaces[k]) ::
               EqualMethods(Some(m), Some(a)))
  {
    SupertypeSignatureSource(clazz, |clazz.interfaces|, Sig(m));
    if clazz.superclass.Some? && Sig(m) in AccessibleMethodSignatures(clazz.superclass.value) {
      var a :| a in AllMethodsFromSupertypes(clazz.superclass.value) && Sig(a) == Sig(m);
      assert EqualMethods(Some(m), Some(a));
    } else {
      var k :| 0 <= k < |clazz.interfaces| && Sig(m) in AccessibleMethodSignatures(clazz.interfaces[k]);
      var a :| a in AllMethodsFromSupertypes(clazz.interfaces[k]) && Sig(a) == Sig(m);
      assert EqualMethods(Some(m), Some(a));
    }
  }

  /** Private and open methods are disjoint parts of the type's own
      methods, so together they never outnumber them. */
  lemma MethodHidingCounts(clazz: Type)
    ensures |GetPrivateMethods(clazz)| + |GetOpenMethods(clazz)| <= |OwnMethods(clazz)|
  {
    SubsetCard(GetPrivateMethods(clazz) + GetOpenMethods(clazz), OwnMethods(clazz));
  }

  /** A type's declared-for-inheritance fields are among its accessible names. */
  lemma DeclaredFieldNamesAreAccessible(clazz: Type)
    ensures Image(GetDeclaredForInheritanceFields(clazz), FieldName) <= AccessibleFieldNames(clazz)
  {
    assert GetDeclaredForInheritanceFields(clazz) <= AllFieldsFromSupertypes(clazz);
  }

  /** A class never has more private fields than declared fields; an
      interface has no declared fields to count. */
  lemma FieldHidingCounts(clazz: Type)
    ensures clazz.kind == Class ==> |GetPrivateFields(clazz)| <= |GetAllDeclaredFields(clazz)|
    ensures clazz.kind == Interface ==> |GetAllDeclaredFields(clazz)| == 0
  {
    if clazz.kind == Class {
      SubsetCard(GetPrivateFields(clazz), GetAllDeclaredFields(clazz));
    }
  }
}
