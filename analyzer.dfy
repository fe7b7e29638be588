/** The analyzer: one metrics holder per type of the namespace, filled in
    from the member classifier's sets, then the namespace-wide sums and the
    five MOOD factors. The namespace is the sequence of its already resolved
    types, in the order the scan delivers them. */
module Analyzer {
  import opened TypeGraph
  import opened KeyedSets
  import opened ReflectionHelper
  import opened Ratios
  import opened Metrics

  // ---------------------------------------------------------------------
  // Number of children

  /** `u` names `t` as its superclass or as one of its direct interfaces. */
  predicate NamesAsDirectSupertype(u: Type, t: Type)
  {
    (u.superclass.Some? && u.superclass.value.name == t.name)
    || (exists i | i in u.interfaces :: i.name == t.name)
  }

  /** The names of the namespace types directly below `t`, as the scan's
      subtype store records them under `t`'s name. */
  function DirectSubtypeNames(namespace: seq<Type>, t: Type): set<string>
  {
    set u | u in namespace && NamesAsDirectSupertype(u, t) :: u.name
  }

  function NumberOfChildren(namespace: seq<Type>, t: Type): nat
  {
    |DirectSubtypeNames(namespace, t)|
  }

  /** A type has no more children than the namespace has types; it has one
      for every namespace type directly below it and none when there is no
      such type. */
  lemma {:induction false} NumberOfChildrenBounds(namespace: seq<Type>, t: Type)
    ensures NumberOfChildren(namespace, t) <= |namespace|
    ensures (exists u | u in namespace :: NamesAsDirectSupertype(u, t)) <==> NumberOfChildren(namespace, t) > 0
  {
    if |namespace| > 0 {
      var front := namespace[..|namespace| - 1];
      var last := namespace[|namespace| - 1];
      NumberOfChildrenBounds(front, t);
      assert namespace == front + [last];
      var extra: set<string> := if NamesAsDirectSupertype(last, t) then {last.name} else {};
      assert DirectSubtypeNames(namespace, t) == DirectSubtypeNames(front, t) + extra;
    }
  }

  // ---------------------------------------------------------------------
  // Set differences of the classifier's outputs

  /** The accessible methods that match no declared method by identity. */
  function InheritedAndNonOverrideMethods(accessibleMethods: set<Method>, declaredMethods: set<Method>): (r: set<Method>)
    ensures r <= accessibleMethods && r !! declaredMethods
    ensures r == WithoutKeys(accessibleMethods, Image(declaredMethods, Sig), Sig)
  {
    set a | a in accessibleMethods && forall d | d in declaredMethods :: !EqualMethods(Some(a), Some(d))
  }

  /** The accessible fields that match no declared-for-inheritance field by name. */
  function InheritedAndNonOverrideFields(accessibleFields: set<Field>, declaredFields: set<Field>): (r: set<Field>)
    ensures r <= accessibleFields && r !! declaredFields
    ensures r == WithoutKeys(accessibleFields, Image(declaredFields, FieldName), FieldName)
  {
    set a | a in accessibleFields && forall d | d in declaredFields :: !EqualFields(Some(a), Some(d))
  }

  /** The declared methods that match no overriding method by identity. */
  function NewMethods(declaredMethods: set<Method>, overriddenMethods: set<Method>): (r: set<Method>)
    ensures r <= declaredMethods && r !! overriddenMethods
    ensures r == WithoutKeys(declaredMethods, Image(overriddenMethods, Sig), Sig)
  {
    set m1 | m1 in declaredMethods && forall m2 | m2 in overriddenMethods :: !EqualMethods(Some(m1), Some(m2))
  }

  /** When the overriding methods are the declared methods with an identity
      from some set, the new methods are the declared methods with an
      identity outside it, and the two parts add up to the declared methods. */
  lemma NewMethodsPartition(declaredMethods: set<Method>, signatures: set<Signature>)
    ensures NewMethods(declaredMethods, WithSignatureIn(declaredMethods, signatures))
         == WithoutKeys(declaredMethods, signatures, Sig)
    ensures |WithoutKeys(declaredMethods, signatures, Sig)|
          + |WithSignatureIn(declaredMethods, signatures)| == |declaredMethods|
  {
    var overridden := WithSignatureIn(declaredMethods, signatures);
    forall m | m in declaredMethods && Sig(m) in Image(overridden, Sig)
      ensures Sig(m) in signatures
    {
      var o :| o in overridden && Sig(o) == Sig(m);
    }
    assert WithoutKeys(declaredMethods, signatures, Sig) == declaredMethods - overridden;
    DifferenceCard(declaredMethods, overridden);
  }

  // ---------------------------------------------------------------------
  // The record of one type, by identities

  /** Accessible method identities not redeclared by the type. */
  function InheritedNonOverrideSignatures(clazz: Type): set<Signature>
  {
    KeysOutside(AccessibleMethodSignatures(clazz), Image(GetDeclaredMethods(clazz), Sig))
  }

  /** Accessible field names not redeclared by the type. */
  function InheritedNonOverrideFieldNames(clazz: Type): set<string>
  {
    KeysOutside(AccessibleFieldNames(clazz), Image(GetDeclaredForInheritanceFields(clazz), FieldName))
  }

  /** Declared methods whose identity no direct supertype makes accessible. */
  function NewMethodsOf(clazz: Type): set<Method>
  {
    WithoutKeys(GetDeclaredMethods(clazz), SupertypeSignatures(clazz), Sig)
  }

  /** The record the analyzer builds for `t`, stated over identities rather
      than over the representatives a query happens to keep. */
  function RecordFor(namespace: seq<Type>, t: Type): Record
  {
    Record(
      t.name,
      if t.kind == Interface then -1 else SuperclassSteps(t) - 1,
      NumberOfChildren(namespace, t),
      |InheritedNonOverrideSignatures(t)|,
      |AccessibleMethodSignatures(t)|,
      |GetPrivateMethods(t)|,
      |GetOpenMethods(t)|,
      |InheritedNonOverrideFieldNames(t)|,
      |AccessibleFieldNames(t)|,
      |GetPrivateFields(t)|,
      |GetAllDeclaredFields(t)|,
      |InheritedAndOverriddenMethods(t)|,
      |NewMethodsOf(t)|)
  }

  /** The records of `types`, in order. */
  function RecordsFor(namespace: seq<Type>, types: seq<Type>): seq<Record>
  {
    seq(|types|, i requires 0 <= i < |types| => RecordFor(namespace, types[i]))
  }

  /** Appending a type appends its record. */
  lemma RecordsForAppend(namespace: seq<Type>, types: seq<Type>, t: Type)
    ensures RecordsFor(namespace, types + [t]) == RecordsFor(namespace, types) + [RecordFor(namespace, t)]
  {
  }

  /** Extending a prefix of the types by one extends its records by one. */
  lemma RecordsForPrefix(namespace: seq<Type>, types: seq<Type>, i: nat)
    requires i < |types|
    ensures RecordsFor(namespace, types[..i + 1]) == RecordsFor(namespace, types[..i]) + [RecordFor(namespace, types[i])]
  {
    assert types[..i + 1] == types[..i] + [types[i]];
    RecordsForAppend(namespace, types[..i], types[i]);
  }

  /** What every record satisfies: inherited counts never exceed accessible
      counts, new and overriding methods split the declared methods, private
      and open methods are among the own methods, and an interface has depth
      -1 and no counted fields. */
  lemma RecordForProperties(namespace: seq<Type>, t: Type)
    ensures RecordFor(namespace, t).className == t.name
    ensures RecordFor(namespace, t).numOfInheritedAndNonOverrideMethods <= RecordFor(namespace, t).numOfAccessibleMethods
    ensures RecordFor(namespace, t).numOfInheritedAndNonOverrideFields <= RecordFor(namespace, t).numOfAccessibleFields
    ensures RecordFor(namespace, t).numOfNewMethods + RecordFor(namespace, t).numOfInheritedAndOverrideMethods
         == |GetDeclaredMethods(t)|
    ensures RecordFor(namespace, t).numOfPrivateMethods + RecordFor(namespace, t).numOfOpenMethods <= |OwnMethods(t)|
    ensures t.kind == Class ==> RecordFor(namespace, t).numOfPrivateFields <= RecordFor(namespace, t).numOfFields
    ensures t.kind == Class ==> RecordFor(namespace, t).depthOfInheritanceTree >= -1
    ensures t.kind == Interface ==> RecordFor(namespace, t).depthOfInheritanceTree == -1
    ensures t.kind == Interface ==> RecordFor(namespace, t).numOfFields == 0
    ensures RecordFor(namespace, t).numOfChildren <= |namespace|
  {
    SubsetCard(InheritedNonOverrideSignatures(t), AccessibleMethodSignatures(t));
    SubsetCard(InheritedNonOverrideFieldNames(t), AccessibleFieldNames(t));
    NewMethodsPartition(GetDeclaredMethods(t), SupertypeSignatures(t));
    MethodHidingCounts(t);
    FieldHidingCounts(t);
    NumberOfChildrenBounds(namespace, t);
  }

  // ---------------------------------------------------------------------
  // Filling in one holder

  /** Sets the accessible-method count and the inherited, not overridden
      method count. */
  method CalculateMethodInheritanceCoefficients(classMetrics: ClassMetrics)
    modifies classMetrics`numOfAccessibleMethods, classMetrics`numOfInheritedAndNonOverrideMethods
    ensures classMetrics.Snapshot() == old(classMetrics.Snapshot()).(
              numOfAccessibleMethods := |AccessibleMethodSignatures(classMetrics.clazz)|,
              numOfInheritedAndNonOverrideMethods := |InheritedNonOverrideSignatures(classMetrics.clazz)|)
  {
    var clazz := classMetrics.clazz;
    var accessibleMethods := GetAccessibleMethods(clazz);
    var declaredMethods := GetDeclaredMethods(clazz);
    var inheritedAndNonOverrideMethods := InheritedAndNonOverrideMethods(accessibleMethods, declaredMethods);
    WithoutKeysCard(accessibleMethods, Image(declaredMethods, Sig), Sig);
    classMetrics.numOfAccessibleMethods := |accessibleMethods|;
    classMetrics.numOfInheritedAndNonOverrideMethods := |inheritedAndNonOverrideMethods|;
  }

  /** Sets the private-method and open-method counts. */
  method CalculateMethodHidingCoefficients(classMetrics: ClassMetrics)
    modifies classMetrics`numOfPrivateMethods, classMetrics`numOfOpenMethods
    ensures classMetrics.Snapshot() == old(classMetrics.Snapshot()).(
              numOfPrivateMethods := |GetPrivateMethods(classMetrics.clazz)|,
              numOfOpenMethods := |GetOpenMethods(classMetrics.clazz)|)
  {
    var clazz := classMetrics.clazz;
    var privateMethods := GetPrivateMethods(clazz);
    var openMethods := GetOpenMethods(clazz);
    classMetrics.numOfPrivateMethods := |privateMethods|;
    classMetrics.numOfOpenMethods := |openMethods|;
  }

  /** Sets the accessible-field count and the inherited, not redeclared
      field count. */
  method CalculateAttributeInheritanceCoefficients(classMetrics: ClassMetrics)
    modifies classMetrics`numOfAccessibleFields, classMetrics`numOfInheritedAndNonOverrideFields
    ensures classMetrics.Snapshot() == old(classMetrics.Snapshot()).(
              numOfAccessibleFields := |AccessibleFieldNames(classMetrics.clazz)|,
              numOfInheritedAndNonOverrideFields := |InheritedNonOverrideFieldNames(classMetrics.clazz)|)
  {
    var clazz := classMetrics.clazz;
    var accessibleFields := GetAccessibleFields(clazz);
    var declaredFields := GetDeclaredForInheritanceFields(clazz);
    var inheritedAndNonOverrideFields := InheritedAndNonOverrideFields(accessibleFields, declaredFields);
    WithoutKeysCard(accessibleFields, Image(declaredFields, FieldName), FieldName);
    classMetrics.numOfAccessibleFields := |accessibleFields|;
    classMetrics.numOfInheritedAndNonOverrideFields := |inheritedAndNonOverrideFields|;
  }

  /** Sets the private-field and declared-field counts. */
  method CalculateAttributeHidingCoefficients(classMetrics: ClassMetrics)
    modifies classMetrics`numOfPrivateFields, classMetrics`numOfFields
    ensures classMetrics.Snapshot() == old(classMetrics.Snapshot()).(
              numOfPrivateFields := |GetPrivateFields(classMetrics.clazz)|,
              numOfFields := |GetAllDeclaredFields(classMetrics.clazz)|)
  {
    var clazz := classMetrics.clazz;
    var privateFields := GetPrivateFields(clazz);
    var allDeclaredFields := GetAllDeclaredFields(clazz);
    classMetrics.numOfPrivateFields := |privateFields|;
    classMetrics.numOfFields := |allDeclaredFields|;
  }

  /** Sets the overriding-method and new-method counts. */
  method CalculatePolymorphismObjectCoefficients(classMetrics: ClassMetrics)
    modifies classMetrics`numOfInheritedAndOverrideMethods, classMetrics`numOfNewMethods
    ensures classMetrics.Snapshot() == old(classMetrics.Snapshot()).(
              numOfInheritedAndOverrideMethods := |InheritedAndOverriddenMethods(classMetrics.clazz)|,
              numOfNewMethods := |NewMethodsOf(classMetrics.clazz)|)
  {
    var clazz := classMetrics.clazz;
    var inheritedAndOverriddenMethods := GetInheritedAndOverriddenMethods(clazz);
    var newMethods := NewMethods(GetDeclaredMethods(clazz), inheritedAndOverriddenMethods);
    NewMethodsPartition(GetDeclaredMethods(clazz), SupertypeSignatures(clazz));
    classMetrics.numOfInheritedAndOverrideMethods := |inheritedAndOverriddenMethods|;
    classMetrics.numOfNewMethods := |newMethods|;
  }

  /** The per-type step of the metrics builder: a new holder for `clazz`
      with its depth, its children in the namespace and all coefficients. */
  method BuildClassMetrics(namespace: seq<Type>, clazz: Type) returns (cm: ClassMetrics)
    ensures fresh(cm) && cm.clazz == clazz
    ensures cm.Snapshot() == RecordFor(namespace, clazz)
  {
    cm := new ClassMetrics(clazz);
    var depth := CalculateDepthOfInheritanceTree(clazz);
    cm.depthOfInheritanceTree := depth;
    cm.numOfChildren := NumberOfChildren(namespace, clazz);
    CalculateMethodInheritanceCoefficients(cm);
    CalculateMethodHidingCoefficients(cm);
    CalculateAttributeInheritanceCoefficients(cm);
    CalculateAttributeHidingCoefficients(cm);
    CalculatePolymorphismObjectCoefficients(cm);
  }

  /** One new holder per namespace type, in order, each holding that type's
      record. */
  method GetAllMetricsForClasses(classes: seq<Type>) returns (classMetrics: seq<ClassMetrics>)
    ensures |classMetrics| == |classes|
    ensures forall i | 0 <= i < |classes| :: fresh(classMetrics[i])
    ensures Records(classMetrics) == RecordsFor(classes, classes)
  {
    classMetrics := [];
    for i := 0 to |classes|
      invariant |classMetrics| == i
      invariant forall j | 0 <= j < i :: fresh(classMetrics[j])
      invariant Records(classMetrics) == RecordsFor(classes, classes[..i])
    {
      var cm := BuildClassMetrics(classes, classes[i]);
      RecordsAppend(classMetrics, cm);
      RecordsForPrefix(classes, classes, i);
      classMetrics := classMetrics + [cm];
    }
    assert classes[..|classes|] == classes;
  }

  // ---------------------------------------------------------------------
  // The five factors

  /** Each factor calculation sums two counts over the holders' records,
      stores both sums and their quotient, and changes nothing else. */
  method CalculateMethodInheritanceFactor(classMetrics: seq<ClassMetrics>, result: Result)
    modifies result`sumOfInheritedAndNonOverrideMethods, result`sumOfAccessibleMethods,
             result`methodInheritanceFactor
    ensures Records(classMetrics) == old(Records(classMetrics))
    ensures result.Totals() == old(result.Totals()).(
      sumOfInheritedAndNonOverrideMethods := Sum(Records(classMetrics), Count.InheritedAndNonOverrideMethods),
      sumOfAccessibleMethods := Sum(Records(classMetrics), AccessibleMethods),
      methodInheritanceFactor := MethodInheritanceFactor(Records(classMetrics)))
  {
    var records := Records(classMetrics);
    var sumOfInheritedAndNonOverrideMethods := Sum(records, Count.InheritedAndNonOverrideMethods);
    var sumOfAccessibleMethods := Sum(records, AccessibleMethods);
    result.sumOfInheritedAndNonOverrideMethods := sumOfInheritedAndNonOverrideMethods;
    result.sumOfAccessibleMethods := sumOfAccessibleMethods;
    result.methodInheritanceFactor := Divide(sumOfInheritedAndNonOverrideMethods, sumOfAccessibleMethods);
  }

  method CalculateMethodHidingFactor(classMetrics: seq<ClassMetrics>, result: Result)
    modifies result`sumOfPrivateMethods, result`sumOfOpenMethods, result`methodHidingFactor
    ensures Records(classMetrics) == old(Records(classMetrics))
    ensures result.Totals() == old(result.Totals()).(
      sumOfPrivateMethods := Sum(Records(classMetrics), PrivateMethods),
      sumOfOpenMethods := Sum(Records(classMetrics), OpenMethods),
      methodHidingFactor := MethodHidingFactor(Records(classMetrics)))
  {
    var records := Records(classMetrics);
    var sumOfPrivateMethods := Sum(records, PrivateMethods);
    var sumOfOpenMethods := Sum(records, OpenMethods);
    result.sumOfPrivateMethods := sumOfPrivateMethods;
    result.sumOfOpenMethods := sumOfOpenMethods;
    result.methodHidingFactor := Divide(sumOfPrivateMethods, sumOfPrivateMethods + sumOfOpenMethods);
  }

  method CalculateAttributeHidingFactor(classMetrics: seq<ClassMetrics>, result: Result)
    modifies result`sumOfPrivateFields, result`sumOfFields, result`attributeHidingFactor
    ensures Records(classMetrics) == old(Records(classMetrics))
    ensures result.Totals() == old(result.Totals()).(
      sumOfPrivateFields := Sum(Records(classMetrics), PrivateFields),
      sumOfFields := Sum(Records(classMetrics), Fields),
      attributeHidingFactor := AttributeHidingFactor(Records(classMetrics)))
  {
    var records := Records(classMetrics);
    var numOfPrivateFields := Sum(records, PrivateFields);
    var numOfFields := Sum(records, Fields);
    result.sumOfPrivateFields := numOfPrivateFields;
    result.sumOfFields := numOfFields;
    result.attributeHidingFactor := Divide(numOfPrivateFields, numOfFields);
  }

  method CalculateAttributeInheritanceFactor(classMetrics: seq<ClassMetrics>, result: Result)
    modifies result`sumOfInheritedAndNonOverrideFields, result`sumOfAccessibleFields,
             result`attributeInheritanceFactor
    ensures Records(classMetrics) == old(Records(classMetrics))
    ensures result.Totals() == old(result.Totals()).(
      sumOfInheritedAndNonOverrideFields := Sum(Records(classMetrics), Count.InheritedAndNonOverrideFields),
      sumOfAccessibleFields := Sum(Records(classMetrics), AccessibleFields),
      attributeInheritanceFactor := AttributeInheritanceFactor(Records(classMetrics)))
  {
    var records := Records(classMetrics);
    var sumOfInheritedAndNonOverrideFields := Sum(records, Count.InheritedAndNonOverrideFields);
    var sumOfAccessibleFields := Sum(records, AccessibleFields);
    result.sumOfInheritedAndNonOverrideFields := sumOfInheritedAndNonOverrideFields;
    result.sumOfAccessibleFields := sumOfAccessibleFields;
    result.attributeInheritanceFactor := Divide(sumOfInheritedAndNonOverrideFields, sumOfAccessibleFields);
  }

  method CalculatePolymorphismObjectFactor(classMetrics: seq<ClassMetrics>, result: Result)
    modifies result`sumOfInheritedAndOverrideMethods, result`newMethodsCoefficient,
             result`polymorphismObjectFactor
    ensures Records(classMetrics) == old(Records(classMetrics))
    ensures result.Totals() == old(result.Totals()).(
      sumOfInheritedAndOverrideMethods := Sum(Records(classMetrics), InheritedAndOverrideMethods),
      newMethodsCoefficient := Sum(Records(classMetrics), NewMethodsTimesChildren),
      polymorphismObjectFactor := PolymorphismObjectFactor(Records(classMetrics)))
  {
    var records := Records(classMetrics);
    var sumOfInheritedAndOverrideMethods := Sum(records, InheritedAndOverrideMethods);
    var newMethodsCoefficient := Sum(records, NewMethodsTimesChildren);
    result.sumOfInheritedAndOverrideMethods := sumOfInheritedAndOverrideMethods;
    result.newMethodsCoefficient := newMethodsCoefficient;
    result.polymorphismObjectFactor := Divide(sumOfInheritedAndOverrideMethods, newMethodsCoefficient);
  }

  /** The whole analysis of a namespace: one holder per type, in order,
      holding that type's record, then every factor and sum over those
      records. */
  method CalculateMetrics(classes: seq<Type>) returns (result: Result)
    ensures fresh(result)
    ensures |result.classMetrics| == |classes|
    ensures Records(result.classMetrics) == RecordsFor(classes, classes)
    ensures result.Totals() == SummaryOf(RecordsFor(classes, classes))
  {
    var classMetrics := GetAllMetricsForClasses(classes);
    result := new Result(classMetrics);
    CalculateFactors(result);
  }

  /** The five factor calculations in order; together they fill in every
      factor and sum, and none changes the holders. */
  method CalculateFactors(result: Result)
    modifies result`sumOfInheritedAndNonOverrideMethods, result`sumOfAccessibleMethods,
             result`methodInheritanceFactor,
             result`sumOfPrivateMethods, result`sumOfOpenMethods, result`methodHidingFactor,
             result`sumOfPrivateFields, result`sumOfFields, result`attributeHidingFactor,
             result`sumOfInheritedAndNonOverrideFields, result`sumOfAccessibleFields,
             result`attributeInheritanceFactor,
             result`sumOfInheritedAndOverrideMethods, result`newMethodsCoefficient,
             result`polymorphismObjectFactor
    ensures Records(result.classMetrics) == old(Records(result.classMetrics))
    ensures result.Totals() == SummaryOf(Records(result.classMetrics))
  {
    CalculateMethodInheritanceFactor(result.classMetrics, result);
    CalculateMethodHidingFactor(result.classMetrics, result);
    CalculateAttributeHidingFactor(result.classMetrics, result);
    CalculateAttributeInheritanceFactor(result.classMetrics, result);
    CalculatePolymorphismObjectFactor(result.classMetrics, result);
  }

  // ---------------------------------------------------------------------
  // Properties of the namespace factors

  /** Over any namespace the method inheritance factor is never infinite,
      lies in [0, 1] when it is a number, and is undefined exactly when no
      type has an accessible method. */
  lemma NamespaceMethodInheritanceBounds(namespace: seq<Type>, types: seq<Type>)
    ensures MethodInheritanceFactor(RecordsFor(namespace, types)) != Infinite
    ensures MethodInheritanceFactor(RecordsFor(namespace, types)) == Undefined <==>
            forall i | 0 <= i < |types| :: AccessibleMethodSignatures(types[i]) == {}
    ensures MethodInheritanceFactor(RecordsFor(namespace, types)).Ratio? ==>
            0.0 <= MethodInheritanceFactor(RecordsFor(namespace, types)).value <= 1.0
  {
    var rs := RecordsFor(namespace, types);
    forall i | 0 <= i < |rs|
      ensures rs[i].numOfInheritedAndNonOverrideMethods <= rs[i].numOfAccessibleMethods
      ensures rs[i].numOfAccessibleMethods == 0 <==> AccessibleMethodSignatures(types[i]) == {}
    {
      RecordForProperties(namespace, types[i]);
    }
    MethodInheritanceFactorBounded(rs);
    assert (forall i | 0 <= i < |rs| :: rs[i].numOfAccessibleMethods == 0) <==>
           (forall i | 0 <= i < |types| :: AccessibleMethodSignatures(types[i]) == {});
  }

  /** Over any namespace the attribute inheritance factor is never
      infinite, lies in [0, 1] when it is a number, and is undefined exactly
      when no type has an accessible field. */
  lemma NamespaceAttributeInheritanceBounds(namespace: seq<Type>, types: seq<Type>)
    ensures AttributeInheritanceFactor(RecordsFor(namespace, types)) != Infinite
    ensures AttributeInheritanceFactor(RecordsFor(namespace, types)) == Undefined <==>
            forall i | 0 <= i < |types| :: AccessibleFieldNames(types[i]) == {}
    ensures AttributeInheritanceFactor(RecordsFor(namespace, types)).Ratio? ==>
            0.0 <= AttributeInheritanceFactor(RecordsFor(namespace, types)).value <= 1.0
  {
    var rs := RecordsFor(namespace, types);
    forall i | 0 <= i < |rs|
      ensures rs[i].numOfInheritedAndNonOverrideFields <= rs[i].numOfAccessibleFields
      ensures rs[i].numOfAccessibleFields == 0 <==> AccessibleFieldNames(types[i]) == {}
    {
      RecordForProperties(namespace, types[i]);
    }
    AttributeInheritanceFactorBounded(rs);
    assert (forall i | 0 <= i < |rs| :: rs[i].numOfAccessibleFields == 0) <==>
           (forall i | 0 <= i < |types| :: AccessibleFieldNames(types[i]) == {});
  }

  /** Over any namespace the method hiding factor is never infinite and
      lies in [0, 1] when it is a number. */
  lemma NamespaceMethodHidingBounds(namespace: seq<Type>, types: seq<Type>)
    ensures MethodHidingFactor(RecordsFor(namespace, types)) != Infinite
    ensures MethodHidingFactor(RecordsFor(namespace, types)).Ratio? ==>
            0.0 <= MethodHidingFactor(RecordsFor(namespace, types)).value <= 1.0
  {
    MethodHidingFactorBounded(RecordsFor(namespace, types));
  }

  /** Interfaces declare no private fields in the host language; under that
      condition the attribute hiding factor is never infinite, lies in
      [0, 1] when it is a number, and is undefined exactly when no class of
      the namespace declares a field. */
  lemma NamespaceAttributeHidingBounds(namespace: seq<Type>, types: seq<Type>)
    requires forall i | 0 <= i < |types| :: types[i].kind == Interface ==>
               forall f | f in types[i].declaredFields :: !f.isPrivate
    ensures AttributeHidingFactor(RecordsFor(namespace, types)) != Infinite
    ensures AttributeHidingFactor(RecordsFor(namespace, types)) == Undefined <==>
            forall i | 0 <= i < |types| :: types[i].kind == Interface || |types[i].declaredFields| == 0
    ensures AttributeHidingFactor(RecordsFor(namespace, types)).Ratio? ==>
            0.0 <= AttributeHidingFactor(RecordsFor(namespace, types)).value <= 1.0
  {
    var rs := RecordsFor(namespace, types);
    forall i | 0 <= i < |rs|
      ensures rs[i].numOfPrivateFields <= rs[i].numOfFields
      ensures rs[i].numOfFields == 0 <==> types[i].kind == Interface || |types[i].declaredFields| == 0
    {
      RecordFieldCounts(namespace, types[i]);
    }
    AttributeHidingFactorBounded(rs);
    assert (forall i | 0 <= i < |rs| :: rs[i].numOfFields == 0) <==>
           (forall i | 0 <= i < |types| :: types[i].kind == Interface || |types[i].declaredFields| == 0);
  }

  /** The field counts of one record: no more private fields than fields,
      and no fields exactly for an interface or a class declaring none,
      provided an interface declares no private field. */
  lemma RecordFieldCounts(namespace: seq<Type>, t: Type)
    requires t.kind == Interface ==> forall f | f in t.declaredFields :: !f.isPrivate
    ensures RecordFor(namespace, t).numOfPrivateFields <= RecordFor(namespace, t).numOfFields
    ensures RecordFor(namespace, t).numOfFields == 0 <==> t.kind == Interface || |t.declaredFields| == 0
  {
    RecordForProperties(namespace, t);
    if t.kind == Interface {
      assert GetPrivateFields(t) == {};
    } else if |t.declaredFields| > 0 {
      assert t.declaredFields[0] in GetAllDeclaredFields(t);
    }
  }
}
