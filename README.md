# MOOD metrics of a Java namespace, modelled in Dafny

The modelled system computes object-oriented design metrics for every type of
a Java package. It produces two per-type metrics: the depth of inheritance
tree and the number of children. It also produces the five namespace-wide MOOD
factors:

- method inheritance factor (MIF);
- method hiding factor (MHF);
- attribute hiding factor (AHF);
- attribute inheritance factor (AIF);
- polymorphism object factor (POF).

It has two parts, and both are modelled here.

- **The member classifier** (`ReflectionHelper`). For one type it computes
  its depth on the superclass chain. It computes its accessible methods and
  fields: one representative per identity over the type and all its
  supertypes. It computes its declared methods, its declared methods that
  override a supertype's method, its private and open methods, and its
  private, declared-for-inheritance and declared fields. Method identity is
  name plus parameter types. Field identity is the name.
- **The analyzer** (`Analyzer`). It builds one mutable metrics holder per
  type and fills it through setters from set differences of the classifier's
  outputs. It then sums each count over all holders and stores each sum pair
  and its quotient in the shared result.

The Dafny project has one module per concern:

| file | module | what it holds |
|---|---|---|
| `type_graph.dfy` | `TypeGraph` | types, methods and fields as values. A type names its superclass and interfaces directly, so the graph is acyclic by construction. |
| `reflection_utils.dfy` | `ReflectionUtils` | the reflection library's queries: the supertype closure and the per-type and closure-wide member queries filtered by a predicate. |
| `keyed_sets.dfy` | `KeyedSets` | generic facts about sets compared through an identity key: key image, key injectivity, and counting by distinct keys. |
| `reflection_helper.dfy` | `ReflectionHelper` | the member classifier. |
| `ratios.dfy` | `Ratios` | the outcome of a floating-point division as `Undefined` (0/0, NaN), `Infinite` (n/0) or an exact `Ratio`. |
| `metrics.dfy` | `Metrics` | the `ClassMetrics` holder (a class with one field per setter) and its value `Record`; the `Result` class with its five factors and ten sums; the factor functions over a list of records and their bounds. |
| `analyzer.dfy` | `Analyzer` | the coefficient and factor methods and their composition, the reference record of a type (`RecordFor`) and the namespace-level bounds. |

The loops of the source are Dafny loops with invariants:

- the superclass walk;
- the keep-if-no-identity-match loops of the accessible-member queries;
- the collection over the direct interfaces;
- the per-type map over the namespace.

Each is proved against a specification function. The holders and the result
are objects updated field by field. Each setter-calling method states its new
state as "the old state with exactly these fields replaced". Counts are
specified by identities rather than by the representatives a query keeps
(`RecordFor`). The methods that build a set of representatives are proved to
produce sets with exactly those counts.

## Model

| member | source | states |
|---|---|---|
| `ReflectionUtils.AllSuperTypes` | src/main/java/com/maxsvynarchuk/metric/ReflectionHelper.java:31 | Definition of the library closure: the type itself plus, transitively, its superclass and every interface of every type reached. |
| `ReflectionUtils.SelfIsSupertype` | src/main/java/com/maxsvynarchuk/metric/ReflectionHelper.java:31 | The closure of a type contains the type itself. |
| `ReflectionUtils.SuperclassIsSupertype` | src/main/java/com/maxsvynarchuk/metric/ReflectionHelper.java:31 | The closure contains the superclass. |
| `ReflectionUtils.InterfaceIsSupertype` | src/main/java/com/maxsvynarchuk/metric/ReflectionHelper.java:31 | The closure contains every direct interface. |
| `ReflectionUtils.AllSuperTypesTransitive` | src/main/java/com/maxsvynarchuk/metric/ReflectionHelper.java:31 | The closure is transitive: the closure of any member is contained in the closure of the type. |
| `ReflectionUtils.InterfaceMethods` | src/main/java/com/maxsvynarchuk/metric/ReflectionHelper.java:42 | For an interface, the runtime method list holds its own non-private methods and the non-static methods inherited from its superinterfaces. The contract states that every own non-private method is included. |
| `ReflectionUtils.GetMethods` | src/main/java/com/maxsvynarchuk/metric/ReflectionHelper.java:42 | Every method returned by the per-type query satisfies the predicate. |
| `ReflectionUtils.GetAllMethods` | src/main/java/com/maxsvynarchuk/metric/ReflectionHelper.java:31 | Every method returned by the closure-wide query satisfies the predicate, and the per-type result is contained in it. |
| `ReflectionUtils.GetFields` | src/main/java/com/maxsvynarchuk/metric/ReflectionHelper.java:84 | The per-type field query returns only directly declared fields that satisfy the predicate. |
| `ReflectionUtils.GetAllFields` | src/main/java/com/maxsvynarchuk/metric/ReflectionHelper.java:73 | Every field returned by the closure-wide query satisfies the predicate, and the per-type result is contained in it. |
| `ReflectionUtils.AllMethodsMonotone` | src/main/java/com/maxsvynarchuk/metric/ReflectionHelper.java:31 | The closure-wide method query of a supertype is contained in that of the type. |
| `ReflectionUtils.AllFieldsMonotone` | src/main/java/com/maxsvynarchuk/metric/ReflectionHelper.java:73 | The closure-wide field query of a supertype is contained in that of the type. |
| `ReflectionHelper.EqualMethods` | src/main/java/com/maxsvynarchuk/metric/ReflectionHelper.java:112-117 | Method identity holds if and only if both methods are present and have the same name and parameter types. The same object is a special case of this. |
| `ReflectionHelper.EqualFields` | src/main/java/com/maxsvynarchuk/metric/ReflectionHelper.java:119-123 | Field identity holds if and only if both fields are present and have the same name. |
| `ReflectionHelper.EqualMethodsIsEquivalence` | src/main/java/com/maxsvynarchuk/metric/ReflectionHelper.java:112-117 | Method identity is false when either side is absent, and is reflexive, symmetric and transitive on present methods. |
| `ReflectionHelper.EqualFieldsIsEquivalence` | src/main/java/com/maxsvynarchuk/metric/ReflectionHelper.java:119-123 | Field identity is false when either side is absent, and is reflexive, symmetric and transitive on present fields. |
| `ReflectionHelper.SuperclassSteps` | src/main/java/com/maxsvynarchuk/metric/ReflectionHelper.java:23-26 | Definition: the number of superclass links from the type up to the root. |
| `ReflectionHelper.CalculateDepthOfInheritanceTree` | src/main/java/com/maxsvynarchuk/metric/ReflectionHelper.java:18-28 | An interface gets -1. A class gets the number of superclass links minus 1, so the root gets -1 and a class directly under it gets 0. The loop terminates because the chain is acyclic. |
| `ReflectionHelper.AllMethodsFromSupertypes` | src/main/java/com/maxsvynarchuk/metric/ReflectionHelper.java:31 | Definition: the closure-wide methods that are non-abstract, non-private and non-static. |
| `ReflectionHelper.AccessibleMethodSignatures` | src/main/java/com/maxsvynarchuk/metric/ReflectionHelper.java:30-39 | Definition: the distinct identities among those methods. The accessible-method count is the size of this set. |
| `ReflectionHelper.GetAccessibleMethods` | src/main/java/com/maxsvynarchuk/metric/ReflectionHelper.java:30-39 | The result is a subset of the closure methods. Every member is non-abstract, non-private and non-static. No two distinct members share an identity. They cover exactly the closure's identities, and their number is the number of those identities. |
| `ReflectionHelper.AccessibleMethodsRepresentAll` | src/main/java/com/maxsvynarchuk/metric/ReflectionHelper.java:30-39 | A set with exactly the accessible identities holds an identity-equal representative for every closure method. |
| `ReflectionHelper.KeepOneMethodPerSignature` | src/main/java/com/maxsvynarchuk/metric/ReflectionHelper.java:32-37 | The keep-if-no-match loop returns a subset of its input with no repeated identity. Every input method has an identity-equal kept representative, and the count equals the number of distinct input identities. |
| `ReflectionHelper.GetDeclaredMethods` | src/main/java/com/maxsvynarchuk/metric/ReflectionHelper.java:41-49 | The declared methods are among the type's own declaration list and all pass the modifier predicate. For an interface, this is the cut of the library result back to the own list. |
| `ReflectionHelper.DeclaredMethodsAreOwnFiltered` | src/main/java/com/maxsvynarchuk/metric/ReflectionHelper.java:41-49 | For both kinds, the declared methods are exactly the own declared methods that pass the modifier predicate. |
| `ReflectionHelper.DeclaredSignaturesAreAccessible` | src/main/java/com/maxsvynarchuk/metric/ReflectionHelper.java:41-49 | The identities of the declared methods are among the accessible identities. |
| `ReflectionHelper.SuperclassSignatures` | src/main/java/com/maxsvynarchuk/metric/ReflectionHelper.java:56-58 | Definition: the identities accessible on the superclass; none for a type without a superclass. |
| `ReflectionHelper.SupertypeSignaturesUpTo` | src/main/java/com/maxsvynarchuk/metric/ReflectionHelper.java:59-63 | Definition: the superclass identities plus those of the first n direct interfaces. |
| `ReflectionHelper.SupertypeSignatures` | src/main/java/com/maxsvynarchuk/metric/ReflectionHelper.java:55-63 | Definition: the identities accessible on any direct supertype. |
| `ReflectionHelper.NoSignatureNoMatch` | src/main/java/com/maxsvynarchuk/metric/ReflectionHelper.java:52-53 | No method matches an empty set of identities. |
| `ReflectionHelper.InheritedAndOverriddenMethods` | src/main/java/com/maxsvynarchuk/metric/ReflectionHelper.java:51-70 | Reference definition: the declared methods whose identity is accessible on a direct supertype. |
| `ReflectionHelper.MatchingMethods` | src/main/java/com/maxsvynarchuk/metric/ReflectionHelper.java:66-69 | The any-match filter keeps exactly the methods whose identity occurs among the candidates. |
| `ReflectionHelper.GetInheritedAndOverriddenMethods` | src/main/java/com/maxsvynarchuk/metric/ReflectionHelper.java:51-70 | The result is exactly the reference set. This includes the early empty answer for a type with no superclass and no interfaces. |
| `ReflectionHelper.CollectSupertypeMethods` | src/main/java/com/maxsvynarchuk/metric/ReflectionHelper.java:55-63 | The collected set covers exactly the identities accessible on the superclass and on every direct interface. Its loop invariant covers the first i interfaces. |
| `ReflectionHelper.CollectSuperclassMethods` | src/main/java/com/maxsvynarchuk/metric/ReflectionHelper.java:55-58 | The first collection step covers exactly the superclass's accessible identities, or none without a superclass. |
| `ReflectionHelper.SupertypeSignaturesUpToAccessible` | src/main/java/com/maxsvynarchuk/metric/ReflectionHelper.java:55-63 | Identities accessible on a direct supertype are accessible on the type itself. |
| `ReflectionHelper.InheritedAndOverriddenAreDeclared` | src/main/java/com/maxsvynarchuk/metric/ReflectionHelper.java:51-70 | The overriding methods are a subset of the declared methods. They are empty when there is no superclass and no interface. Their identities are accessible on the type. |
| `ReflectionHelper.SupertypeSignatureSource` | src/main/java/com/maxsvynarchuk/metric/ReflectionHelper.java:55-63 | A collected identity is accessible on the superclass or on one specific direct interface. |
| `ReflectionHelper.OverriddenMethodHasOrigin` | src/main/java/com/maxsvynarchuk/metric/ReflectionHelper.java:51-70 | Each overriding method is declared and identity-matches an accessible method of the superclass or of some direct interface. |
| `ReflectionHelper.GetPrivateMethods` | src/main/java/com/maxsvynarchuk/metric/ReflectionHelper.java:87-91 | The private methods are among the own methods and are disjoint from the declared, inheritable methods. |
| `ReflectionHelper.GetOpenMethods` | src/main/java/com/maxsvynarchuk/metric/ReflectionHelper.java:93-97 | The open methods are among the own methods and are disjoint from the private methods. They contain every declared inheritable method and every static non-private, non-abstract method. |
| `ReflectionHelper.MethodHidingCounts` | src/main/java/com/maxsvynarchuk/metric/ReflectionHelper.java:87-97 | The private and open counts together never exceed the number of own methods. |
| `ReflectionHelper.AllFieldsFromSupertypes` | src/main/java/com/maxsvynarchuk/metric/ReflectionHelper.java:73 | Definition: the closure-wide fields that are non-private and non-static. |
| `ReflectionHelper.AccessibleFieldNames` | src/main/java/com/maxsvynarchuk/metric/ReflectionHelper.java:72-81 | Definition: the distinct names among those fields. |
| `ReflectionHelper.GetAccessibleFields` | src/main/java/com/maxsvynarchuk/metric/ReflectionHelper.java:72-81 | The result is a subset of the closure fields. Every member is non-private and non-static. No two members share a name. They cover exactly the closure's names, and their number is the number of those names. |
| `ReflectionHelper.AccessibleFieldsRepresentAll` | src/main/java/com/maxsvynarchuk/metric/ReflectionHelper.java:72-81 | A set with exactly the accessible names holds a same-named representative for every closure field. |
| `ReflectionHelper.KeepOneFieldPerName` | src/main/java/com/maxsvynarchuk/metric/ReflectionHelper.java:74-79 | The keep-if-no-match loop returns a subset of its input with no repeated name. Every input field has a kept field of the same name, and the count equals the number of distinct names. |
| `ReflectionHelper.GetDeclaredForInheritanceFields` | src/main/java/com/maxsvynarchuk/metric/ReflectionHelper.java:83-85 | The result is among the type's own fields, and each member is non-private and non-static. |
| `ReflectionHelper.GetPrivateFields` | src/main/java/com/maxsvynarchuk/metric/ReflectionHelper.java:99-103 | The private fields are among the own fields and are disjoint from the declared-for-inheritance fields. |
| `ReflectionHelper.GetAllDeclaredFields` | src/main/java/com/maxsvynarchuk/metric/ReflectionHelper.java:105-110 | The result is empty for an interface. For a class it is exactly the own fields, and it contains the private and the declared-for-inheritance fields. |
| `ReflectionHelper.DeclaredFieldNamesAreAccessible` | src/main/java/com/maxsvynarchuk/metric/ReflectionHelper.java:72-85 | The names of the declared-for-inheritance fields are among the accessible names. |
| `ReflectionHelper.FieldHidingCounts` | src/main/java/com/maxsvynarchuk/metric/ReflectionHelper.java:99-110 | A class has no more private fields than declared fields, and an interface counts no declared fields. |
| `Ratios.Divide` | src/main/java/com/maxsvynarchuk/metric/Analyzer.java:62 | The double quotient as a factor. It is NaN (Undefined) if and only if 0/0, infinite if and only if n/0 with n > 0, and otherwise a ratio r with r × denominator = numerator. |
| `Ratios.PartOfWhole` | src/main/java/com/maxsvynarchuk/metric/Analyzer.java:62 | A part over its whole is never infinite. It is a number if and only if the whole is positive, and then it lies in [0, 1]. |
| `Metrics.Sum` | src/main/java/com/maxsvynarchuk/metric/Analyzer.java:53-111 | Definition: the unfiltered sum of one count over every record. |
| `Metrics.SumAppend` | src/main/java/com/maxsvynarchuk/metric/Analyzer.java:53-111 | Summing is additive over concatenation, so every record contributes once. |
| `Metrics.SumMonotone` | src/main/java/com/maxsvynarchuk/metric/Analyzer.java:53-111 | A count bounded record by record is bounded in sum. |
| `Metrics.SumZero` | src/main/java/com/maxsvynarchuk/metric/Analyzer.java:53-111 | A sum is zero if and only if every record's count is zero. |
| `Metrics.ClassMetrics.constructor` | src/main/java/com/maxsvynarchuk/metric/ClassMetrics.java:42-45 | A new holder keeps the type and its name, and every count is zero. |
| `Metrics.ClassMetrics.Snapshot` | src/main/java/com/maxsvynarchuk/metric/ClassMetrics.java:19-40 | Definition: the record of the holder's current field values. |
| `Metrics.Result.constructor` | src/main/java/com/maxsvynarchuk/metric/Analyzer.java:40-42 | A freshly built result holds the given holders, every factor is 0.0 and every sum is 0. |
| `Metrics.Result.Totals` | src/main/java/com/maxsvynarchuk/metric/Result.java:10-16 | Definition: the five factors and the ten sums the result currently holds. |
| `Metrics.MethodInheritanceFactor` | src/main/java/com/maxsvynarchuk/metric/Analyzer.java:53-63 | Definition: Σ inherited-and-not-overridden methods divided by Σ accessible methods. |
| `Metrics.MethodHidingFactor` | src/main/java/com/maxsvynarchuk/metric/Analyzer.java:65-75 | Definition: Σ private methods divided by (Σ private + Σ open methods). |
| `Metrics.AttributeHidingFactor` | src/main/java/com/maxsvynarchuk/metric/Analyzer.java:77-87 | Definition: Σ private fields divided by Σ declared fields. |
| `Metrics.AttributeInheritanceFactor` | src/main/java/com/maxsvynarchuk/metric/Analyzer.java:89-99 | Definition: Σ inherited-and-not-redeclared fields divided by Σ accessible fields. |
| `Metrics.PolymorphismObjectFactor` | src/main/java/com/maxsvynarchuk/metric/Analyzer.java:101-111 | Definition: Σ overriding methods divided by Σ (new methods × children). |
| `Metrics.SummaryOf` | src/main/java/com/maxsvynarchuk/metric/Analyzer.java:36-51 | Definition: all five factors with the sums each one divides. |
| `Metrics.MethodHidingFactorBounded` | src/main/java/com/maxsvynarchuk/metric/Analyzer.java:65-75 | MHF is never infinite. It is undefined if and only if every record has no private and no open method, and otherwise it lies in [0, 1]. |
| `Metrics.MethodInheritanceFactorBounded` | src/main/java/com/maxsvynarchuk/metric/Analyzer.java:53-63 | Given inherited ≤ accessible per record, MIF is never infinite. It is undefined if and only if every accessible count is 0, and otherwise it lies in [0, 1]. |
| `Metrics.AttributeInheritanceFactorBounded` | src/main/java/com/maxsvynarchuk/metric/Analyzer.java:89-99 | Given inherited ≤ accessible fields per record, AIF is never infinite. It is undefined if and only if every accessible-field count is 0, and otherwise it lies in [0, 1]. |
| `Metrics.AttributeHidingFactorBounded` | src/main/java/com/maxsvynarchuk/metric/Analyzer.java:77-87 | Given private ≤ declared fields per record, AHF is never infinite. It is undefined if and only if every field count is 0, and otherwise it lies in [0, 1]. |
| `Metrics.PolymorphismObjectFactorCases` | src/main/java/com/maxsvynarchuk/metric/Analyzer.java:101-111 | POF has no upper bound. It is infinite if and only if some record overrides a method while every product of new methods and children is 0. It is undefined if and only if both sums are 0. |
| `Analyzer.NumberOfChildren` | src/main/java/com/maxsvynarchuk/metric/Analyzer.java:203-205 | Definition: the number of distinct names of namespace types that name the type as their superclass or as a direct interface. |
| `Analyzer.NumberOfChildrenBounds` | src/main/java/com/maxsvynarchuk/metric/Analyzer.java:203-205 | A type has at most as many children as the namespace has types. It has a child if and only if some namespace type is directly below it. |
| `Analyzer.InheritedAndNonOverrideMethods` | src/main/java/com/maxsvynarchuk/metric/Analyzer.java:133-136 | The none-match filter is exactly the accessible methods whose identity no declared method carries. So it is a subset of the accessible methods and disjoint from the declared ones. |
| `Analyzer.InheritedAndNonOverrideFields` | src/main/java/com/maxsvynarchuk/metric/Analyzer.java:158-161 | The none-match filter is exactly the accessible fields whose name no declared-for-inheritance field carries. It is a subset of the accessible fields and disjoint from the declared ones. |
| `Analyzer.NewMethods` | src/main/java/com/maxsvynarchuk/metric/Analyzer.java:181-184 | The none-match filter is exactly the declared methods whose identity no overriding method carries. It is a subset of the declared methods and disjoint from the overriding ones. |
| `Analyzer.NewMethodsPartition` | src/main/java/com/maxsvynarchuk/metric/Analyzer.java:177-188 | When the overriding methods are the declared methods with identities from a set, the new methods are the declared methods with identities outside it. The two counts add up to the number of declared methods. |
| `Analyzer.InheritedNonOverrideSignatures` | src/main/java/com/maxsvynarchuk/metric/Analyzer.java:129-140 | Definition: the accessible identities that no declared method carries. |
| `Analyzer.InheritedNonOverrideFieldNames` | src/main/java/com/maxsvynarchuk/metric/Analyzer.java:152-165 | Definition: the accessible names that no declared-for-inheritance field carries. |
| `Analyzer.NewMethodsOf` | src/main/java/com/maxsvynarchuk/metric/Analyzer.java:177-188 | Definition: the declared methods whose identity no direct supertype makes accessible. |
| `Analyzer.RecordFor` | src/main/java/com/maxsvynarchuk/metric/Analyzer.java:113-127 | Reference definition of one type's metrics, stated through identities. It gives the type's name, its depth and children, and each count. |
| `Analyzer.RecordsFor` | src/main/java/com/maxsvynarchuk/metric/Analyzer.java:113-127 | Definition: the reference records of a list of types, in order. |
| `Analyzer.RecordForProperties` | src/main/java/com/maxsvynarchuk/metric/Analyzer.java:113-188 | Every record: carries the type's name; has inherited ≤ accessible for methods and fields; splits the declared methods into new plus overriding; has private + open ≤ own methods; has private ≤ declared fields for a class; has depth -1 and no fields for an interface; has at most |namespace| children. |
| `Analyzer.CalculateMethodInheritanceCoefficients` | src/main/java/com/maxsvynarchuk/metric/Analyzer.java:129-140 | Only the accessible-method and inherited-not-overridden counts of the holder change. They become the number of accessible identities and the number of those not redeclared. |
| `Analyzer.CalculateMethodHidingCoefficients` | src/main/java/com/maxsvynarchuk/metric/Analyzer.java:142-150 | Only the private and open counts change. They become the sizes of the private and open method sets. |
| `Analyzer.CalculateAttributeInheritanceCoefficients` | src/main/java/com/maxsvynarchuk/metric/Analyzer.java:152-165 | Only the accessible-field and inherited-not-redeclared counts change. They become the number of accessible names and the number of those not redeclared. |
| `Analyzer.CalculateAttributeHidingCoefficients` | src/main/java/com/maxsvynarchuk/metric/Analyzer.java:167-175 | Only the private-field and field counts change. They become the sizes of the private and all-declared field sets. |
| `Analyzer.CalculatePolymorphismObjectCoefficients` | src/main/java/com/maxsvynarchuk/metric/Analyzer.java:177-188 | Only the overriding and new method counts change. They become the size of the reference overriding set and the number of declared methods with a new identity. |
| `Analyzer.BuildClassMetrics` | src/main/java/com/maxsvynarchuk/metric/Analyzer.java:115-124 | A new holder for the type whose values are exactly the type's reference record. |
| `Analyzer.GetAllMetricsForClasses` | src/main/java/com/maxsvynarchuk/metric/Analyzer.java:113-127 | One new holder per input type, in order. Their values are exactly the reference records of the types, each carrying its type's name. |
| `Analyzer.CalculateMethodInheritanceFactor` | src/main/java/com/maxsvynarchuk/metric/Analyzer.java:53-63 | Only the MIF and its two sums change. The sums are the unfiltered sums of the holders' counts, and MIF is their quotient. The holders are unchanged. |
| `Analyzer.CalculateMethodHidingFactor` | src/main/java/com/maxsvynarchuk/metric/Analyzer.java:65-75 | Only the MHF and its two sums change. MHF is private over private + open, and the holders are unchanged. |
| `Analyzer.CalculateAttributeHidingFactor` | src/main/java/com/maxsvynarchuk/metric/Analyzer.java:77-87 | Only the AHF and its two sums change. AHF is private fields over fields, and the holders are unchanged. |
| `Analyzer.CalculateAttributeInheritanceFactor` | src/main/java/com/maxsvynarchuk/metric/Analyzer.java:89-99 | Only the AIF and its two sums change. AIF is inherited fields over accessible fields, and the holders are unchanged. |
| `Analyzer.CalculatePolymorphismObjectFactor` | src/main/java/com/maxsvynarchuk/metric/Analyzer.java:101-111 | Only the POF and its two sums change. The denominator sums the per-record product of new methods and children, and the holders are unchanged. |
| `Analyzer.CalculateFactors` | src/main/java/com/maxsvynarchuk/metric/Analyzer.java:44-48 | The five factor calculations in order set every factor and sum to the complete analysis of the holders' records, and leave the holders unchanged. |
| `Analyzer.CalculateMetrics` | src/main/java/com/maxsvynarchuk/metric/Analyzer.java:36-51 | A new result with one holder per type. Their records are the types' reference records, and every factor and sum is the complete analysis of those records. |
| `Analyzer.NamespaceMethodInheritanceBounds` | src/main/java/com/maxsvynarchuk/metric/Analyzer.java:53-63 | Over any namespace, MIF is never infinite. It is undefined if and only if no type has an accessible method, and otherwise it lies in [0, 1]. |
| `Analyzer.NamespaceAttributeInheritanceBounds` | src/main/java/com/maxsvynarchuk/metric/Analyzer.java:89-99 | Over any namespace, AIF is never infinite. It is undefined if and only if no type has an accessible field, and otherwise it lies in [0, 1]. |
| `Analyzer.NamespaceMethodHidingBounds` | src/main/java/com/maxsvynarchuk/metric/Analyzer.java:65-75 | Over any namespace, MHF is never infinite, and when it is a number it lies in [0, 1]. |
| `Analyzer.NamespaceAttributeHidingBounds` | src/main/java/com/maxsvynarchuk/metric/Analyzer.java:77-87 | Assuming interfaces declare no private fields, AHF is never infinite. It is undefined if and only if every type is an interface or declares no field, and otherwise it lies in [0, 1]. |
| `Analyzer.RecordFieldCounts` | src/main/java/com/maxsvynarchuk/metric/Analyzer.java:167-175 | Under the same assumption, a record has private ≤ declared fields. It has no fields if and only if the type is an interface or declares none. |

## Left out

- Classpath scanning is not modelled. The reflection scanner set-up (`Analyzer.java:29-34`) and the class loading by name with its error message (`Analyzer.java:190-201`) are omitted. The namespace is a given sequence of already resolved types, one entry per type.
- The child count is modelled over the given namespace: the distinct names of its types that name the type as their direct superclass or interface. The scanner's subtype store (`Analyzer.java:203-205`) also records types outside the package, and that is not modelled.
- The reflection library's own exclusion of `java.lang.Object` from its closure queries is not modelled. The closure is the full supertype closure.
- Bridge and synthetic methods, default-method dispatch and the ordering of `Class.getDeclaredMethods` are not modelled. Which representative a hash set keeps is left open: the keep loops pick any element, and only the identities and counts they produce are specified.
- `double` arithmetic is not modelled. Sums are exact `nat`s and a quotient is an exact real, with NaN and infinity as the constructors `Undefined` and `Infinite`. Rounding of large sums is therefore not captured.
- Integer width is not modelled: the per-record coefficient new methods × children is a Java `int` product. The model does not capture its 32-bit wrap-around, because the counts are unbounded `nat`s. The same holds for every `int` count in `ClassMetrics`.
- The console output of the result (`Result.java:18-69`) and the entry point `Runner.java` are I/O and are left out.
- The result's fields follow what the analyzer sets, not `Result.java`. The analyzer calls setters for ten sums and five factors. `Result.java:10-16` declares only the five factors, as final fields with a builder, and no setters. The model's `Result` has all fifteen fields, mutable, starting at the builder's defaults (0.0 and 0).
- The redundant `interfaces.length != 0` guard around the interface loop (`ReflectionHelper.java:59`) is not modelled separately. A loop over no interfaces does nothing.
- ReflectionHelper.GetAccessibleMethods: the "every closure method has an identity-equal representative" promise is a separate lemma (`AccessibleMethodsRepresentAll`), which follows from the method's identity-image postcondition. It is not stated in the method's own `ensures`. The same applies to ReflectionHelper.GetAccessibleFields and `AccessibleFieldsRepresentAll`.
- Analyzer.GetAllMetricsForClasses: the postcondition does not say that the i-th holder's `clazz` is the i-th type. It does say that the holder's record, including the type's name, is that type's record. The equality of whole type values made the proof too costly.
- Analyzer.CalculateMetrics: for the same reason it identifies each holder through its record and name, not through its `clazz`.
- The loops of `getAccessibleMethods`, `getAccessibleFields`, `getInheritedAndOverriddenMethods` and `getAllMetricsForClasses`, and the five factor calls of `calculateMetrics`, are split into helper methods. These are `KeepOneMethodPerSignature`, `KeepOneFieldPerName`, `CollectSuperclassMethods`/`CollectSupertypeMethods`, `BuildClassMetrics` and `CalculateFactors`. The order of the steps is the source's.
- Interfaces are assumed to declare no private fields for the attribute hiding bounds (`NamespaceAttributeHidingBounds`), as the Java language enforces. The type graph itself does not rule such fields out.
