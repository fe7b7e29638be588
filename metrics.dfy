/** The per-type metrics record, the mutable holder the analyzer fills in
    through setters, and the namespace-wide result with its sums and the
    five MOOD factors. */
module Metrics {
  import opened TypeGraph
  import opened Ratios

  /** The values one `ClassMetrics` holds once the analyzer has set them. */
  datatype Record = Record(
    className: string,
    depthOfInheritanceTree: int,
    numOfChildren: nat,
    numOfInheritedAndNonOverrideMethods: nat,
    numOfAccessibleMethods: nat,
    numOfPrivateMethods: nat,
    numOfOpenMethods: nat,
    numOfInheritedAndNonOverrideFields: nat,
    numOfAccessibleFields: nat,
    numOfPrivateFields: nat,
    numOfFields: nat,
    numOfInheritedAndOverrideMethods: nat,
    numOfNewMethods: nat)

  /** The per-record quantities the aggregator sums. */
  datatype Count =
    | InheritedAndNonOverrideMethods
    | AccessibleMethods
    | PrivateMethods
    | OpenMethods
    | InheritedAndNonOverrideFields
    | AccessibleFields
    | PrivateFields
    | Fields
    | InheritedAndOverrideMethods
    | NewMethodsTimesChildren

  /** The quantity `c` of a record; the polymorphism denominator takes the
      product of new methods and children. */
  function Get(r: Record, c: Count): nat
  {
    match c
    case InheritedAndNonOverrideMethods => r.numOfInheritedAndNonOverrideMethods
    case AccessibleMethods => r.numOfAccessibleMethods
    case PrivateMethods => r.numOfPrivateMethods
    case OpenMethods => r.numOfOpenMethods
    case InheritedAndNonOverrideFields => r.numOfInheritedAndNonOverrideFields
    case AccessibleFields => r.numOfAccessibleFields
    case PrivateFields => r.numOfPrivateFields
    case Fields => r.numOfFields
    case InheritedAndOverrideMethods => r.numOfInheritedAndOverrideMethods
    case NewMethodsTimesChildren => r.numOfNewMethods * r.numOfChildren
  }

  /** The sum of quantity `c` over every record, none filtered out. */
  function Sum(rs: seq<Record>, c: Count): nat
  {
    if |rs| == 0 then 0 else Sum(rs[..|rs| - 1], c) + Get(rs[|rs| - 1], c)
  }

  /** Summing is additive over concatenation, so every record contributes
      its own quantity regardless of where it stands. */
  lemma {:induction false} SumAppend(a: seq<Record>, b: seq<Record>, c: Count)
    ensures Sum(a + b, c) == Sum(a, c) + Sum(b, c)
    decreases |b|
  {
    if |b| == 0 {
      assert a + b == a;
    } else {
      assert (a + b)[..|a + b| - 1] == a + b[..|b| - 1];
      SumAppend(a, b[..|b| - 1], c);
    }
  }

  /** A quantity bounded record by record is bounded in sum. */
  lemma {:induction false} SumMonotone(rs: seq<Record>, small: Count, large: Count)
    requires forall i | 0 <= i < |rs| :: Get(rs[i], small) <= Get(rs[i], large)
    ensures Sum(rs, small) <= Sum(rs, large)
  {
    if |rs| > 0 {
      SumMonotone(rs[..|rs| - 1], small, large);
    }
  }

  /** A sum is zero exactly when every record's quantity is zero. */
  lemma {:induction false} SumZero(rs: seq<Record>, c: Count)
    ensures Sum(rs, c) == 0 <==> forall i | 0 <= i < |rs| :: Get(rs[i], c) == 0
  {
    if |rs| > 0 {
      SumZero(rs[..|rs| - 1], c);
      var front := rs[..|rs| - 1];
      assert forall i | 0 <= i < |front| :: front[i] == rs[i];
    }
  }

  /** The mutable metrics holder of one type: the type and its name are
      fixed at construction, every count starts at zero and is set later. */
  class ClassMetrics {
    const clazz: Type
    const className: string
    var depthOfInheritanceTree: int
    var numOfChildren: nat
    var numOfInheritedAndNonOverrideMethods: nat
    var numOfAccessibleMethods: nat
    var numOfPrivateMethods: nat
    var numOfOpenMethods: nat
    var numOfInheritedAndNonOverrideFields: nat
    var numOfAccessibleFields: nat
    var numOfPrivateFields: nat
    var numOfFields: nat
    var numOfInheritedAndOverrideMethods: nat
    var numOfNewMethods: nat

    constructor(clazz: Type)
      ensures this.clazz == clazz && className == clazz.name
      ensures Snapshot() == Record(clazz.name, 0, 0, 0, 0, 0, 0, 0, 0, 0, 0, 0, 0)
    {
      this.clazz := clazz;
      className := clazz.name;
      depthOfInheritanceTree := 0;
      numOfChildren := 0;
      numOfInheritedAndNonOverrideMethods := 0;
      numOfAccessibleMethods := 0;
      numOfPrivateMethods := 0;
      numOfOpenMethods := 0;
      numOfInheritedAndNonOverrideFields := 0;
      numOfAccessibleFields := 0;
      numOfPrivateFields := 0;
      numOfFields := 0;
      numOfInheritedAndOverrideMethods := 0;
      numOfNewMethods := 0;
    }

    /** The current values of the holder. */
    function Snapshot(): Record
      reads this
    {
      Record(className, depthOfInheritanceTree, numOfChildren,
        numOfInheritedAndNonOverrideMethods, numOfAccessibleMethods,
        numOfPrivateMethods, numOfOpenMethods,
        numOfInheritedAndNonOverrideFields, numOfAccessibleFields,
        numOfPrivateFields, numOfFields,
        numOfInheritedAndOverrideMethods, numOfNewMethods)
    }
  }

  /** The current values of a list of holders, in order. */
  function Records(cms: seq<ClassMetrics>): (rs: seq<Record>)
    reads set i | 0 <= i < |cms| :: cms[i]
  {
    seq(|cms|, i reads cms requires 0 <= i < |cms| => cms[i].Snapshot())
  }

  /** Appending a holder appends its current values. */
  lemma RecordsAppend(cms: seq<ClassMetrics>, cm: ClassMetrics)
    ensures Records(cms + [cm]) == Records(cms) + [cm.Snapshot()]
  {
  }

  /** The values an analysis result holds: the five factors and the ten
      sums they are computed from. */
  datatype Summary = Summary(
    methodInheritanceFactor: Factor,
    methodHidingFactor: Factor,
    attributeHidingFactor: Factor,
    attributeInheritanceFactor: Factor,
    polymorphismObjectFactor: Factor,
    sumOfInheritedAndNonOverrideMethods: nat,
    sumOfAccessibleMethods: nat,
    sumOfPrivateMethods: nat,
    sumOfOpenMethods: nat,
    sumOfPrivateFields: nat,
    sumOfFields: nat,
    sumOfInheritedAndNonOverrideFields: nat,
    sumOfAccessibleFields: nat,
    sumOfInheritedAndOverrideMethods: nat,
    newMethodsCoefficient: nat)

  /** The analysis result: the per-type holders and the factors and sums,
      filled in one factor at a time. */
  class Result {
    const classMetrics: seq<ClassMetrics>
    var methodInheritanceFactor: Factor
    var methodHidingFactor: Factor
    var attributeHidingFactor: Factor
    var attributeInheritanceFactor: Factor
    var polymorphismObjectFactor: Factor
    var sumOfInheritedAndNonOverrideMethods: nat
    var sumOfAccessibleMethods: nat
    var sumOfPrivateMethods: nat
    var sumOfOpenMethods: nat
    var sumOfPrivateFields: nat
    var sumOfFields: nat
    var sumOfInheritedAndNonOverrideFields: nat
    var sumOfAccessibleFields: nat
    var sumOfInheritedAndOverrideMethods: nat
    var newMethodsCoefficient: nat

    /** A freshly built result: every factor is 0.0 and every sum 0. */
    constructor(classMetrics: seq<ClassMetrics>)
      ensures this.classMetrics == classMetrics
      ensures Totals() == Summary(Ratio(0.0), Ratio(0.0), Ratio(0.0), Ratio(0.0), Ratio(0.0),
                                  0, 0, 0, 0, 0, 0, 0, 0, 0, 0)
    {
      this.classMetrics := classMetrics;
      methodInheritanceFactor := Ratio(0.0);
      methodHidingFactor := Ratio(0.0);
      attributeHidingFactor := Ratio(0.0);
      attributeInheritanceFactor := Ratio(0.0);
      polymorphismObjectFactor := Ratio(0.0);
      sumOfInheritedAndNonOverrideMethods := 0;
      sumOfAccessibleMethods := 0;
      sumOfPrivateMethods := 0;
      sumOfOpenMethods := 0;
      sumOfPrivateFields := 0;
      sumOfFields := 0;
      sumOfInheritedAndNonOverrideFields := 0;
      sumOfAccessibleFields := 0;
      sumOfInheritedAndOverrideMethods := 0;
      newMethodsCoefficient := 0;
    }

    /** The factors and sums this result currently holds. */
    function Totals(): Summary
      reads this
    {
      Summary(methodInheritanceFactor, methodHidingFactor, attributeHidingFactor,
              attributeInheritanceFactor, polymorphismObjectFactor,
              sumOfInheritedAndNonOverrideMethods, sumOfAccessibleMethods,
              sumOfPrivateMethods, sumOfOpenMethods, sumOfPrivateFields, sumOfFields,
              sumOfInheritedAndNonOverrideFields, sumOfAccessibleFields,
              sumOfInheritedAndOverrideMethods, newMethodsCoefficient)
    }
  }

  // ---------------------------------------------------------------------
  // The five factors of a list of records

  function MethodInheritanceFactor(rs: seq<Record>): Factor
  {
    Divide(Sum(rs, InheritedAndNonOverrideMethods), Sum(rs, AccessibleMethods))
  }

  function MethodHidingFactor(rs: seq<Record>): Factor
  {
    Divide(Sum(rs, PrivateMethods), Sum(rs, PrivateMethods) + Sum(rs, OpenMethods))
  }

  function AttributeHidingFactor(rs: seq<Record>): Factor
  {
    Divide(Sum(rs, PrivateFields), Sum(rs, Fields))
  }

  function AttributeInheritanceFactor(rs: seq<Record>): Factor
  {
    Divide(Sum(rs, InheritedAndNonOverrideFields), Sum(rs, AccessibleFields))
  }

  function PolymorphismObjectFactor(rs: seq<Record>): Factor
  {
    Divide(Sum(rs, InheritedAndOverrideMethods), Sum(rs, NewMethodsTimesChildren))
  }

  /** The method hiding factor is never infinite; it is a number in [0, 1]
      unless no record has a private or open method, when it is undefined. */
  lemma MethodHidingFactorBounded(rs: seq<Record>)
    ensures MethodHidingFactor(rs) != Infinite
    ensures MethodHidingFactor(rs) == Undefined <==>
            forall i | 0 <= i < |rs| :: rs[i].numOfPrivateMethods == 0 && rs[i].numOfOpenMethods == 0
    ensures MethodHidingFactor(rs).Ratio? ==> 0.0 <= MethodHidingFactor(rs).value <= 1.0
  {
    PartOfWhole(Sum(rs, PrivateMethods), Sum(rs, PrivateMethods) + Sum(rs, OpenMethods));
    SumZero(rs, PrivateMethods);
    SumZero(rs, OpenMethods);
  }

  /** Where every record's inherited count is at most its accessible count,
      the inheritance factor is never infinite, is undefined exactly when
      nothing is accessible anywhere, and otherwise lies in [0, 1]. */
  lemma MethodInheritanceFactorBounded(rs: seq<Record>)
    requires forall i | 0 <= i < |rs| :: rs[i].numOfInheritedAndNonOverrideMethods <= rs[i].numOfAccessibleMethods
    ensures MethodInheritanceFactor(rs) != Infinite
    ensures MethodInheritanceFactor(rs) == Undefined <==>
            forall i | 0 <= i < |rs| :: rs[i].numOfAccessibleMethods == 0
    ensures MethodInheritanceFactor(rs).Ratio? ==> 0.0 <= MethodInheritanceFactor(rs).value <= 1.0
  {
    SumMonotone(rs, InheritedAndNonOverrideMethods, AccessibleMethods);
    PartOfWhole(Sum(rs, InheritedAndNonOverrideMethods), Sum(rs, AccessibleMethods));
    SumZero(rs, AccessibleMethods);
  }

  /** The same bound for the attribute inheritance factor. */
  lemma AttributeInheritanceFactorBounded(rs: seq<Record>)
    requires forall i | 0 <= i < |rs| :: rs[i].numOfInheritedAndNonOverrideFields <= rs[i].numOfAccessibleFields
    ensures AttributeInheritanceFactor(rs) != Infinite
    ensures AttributeInheritanceFactor(rs) == Undefined <==>
            forall i | 0 <= i < |rs| :: rs[i].numOfAccessibleFields == 0
    ensures AttributeInheritanceFactor(rs).Ratio? ==> 0.0 <= AttributeInheritanceFactor(rs).value <= 1.0
  {
    SumMonotone(rs, InheritedAndNonOverrideFields, AccessibleFields);
    PartOfWhole(Sum(rs, InheritedAndNonOverrideFields), Sum(rs, AccessibleFields));
    SumZero(rs, AccessibleFields);
  }

  /** Where no record has more private fields than fields, the attribute
      hiding factor is never infinite and is undefined exactly when no record
      has a field. */
  lemma AttributeHidingFactorBounded(rs: seq<Record>)
    requires forall i | 0 <= i < |rs| :: rs[i].numOfPrivateFields <= rs[i].numOfFields
    ensures AttributeHidingFactor(rs) != Infinite
    ensures AttributeHidingFactor(rs) == Undefined <==>
            forall i | 0 <= i < |rs| :: rs[i].numOfFields == 0
    ensures AttributeHidingFactor(rs).Ratio? ==> 0.0 <= AttributeHidingFactor(rs).value <= 1.0
  {
    SumMonotone(rs, PrivateFields, Fields);
    PartOfWhole(Sum(rs, PrivateFields), Sum(rs, Fields));
    SumZero(rs, Fields);
  }

  /** The polymorphism factor has no bound: it is infinite exactly when some
      record overrides a method while no record has both a new method and a
      child, and undefined when neither happens. */
  lemma PolymorphismObjectFactorCases(rs: seq<Record>)
    ensures PolymorphismObjectFactor(rs) == Infinite <==>
            (exists i | 0 <= i < |rs| :: rs[i].numOfInheritedAndOverrideMethods > 0) &&
            (forall i | 0 <= i < |rs| :: rs[i].numOfNewMethods * rs[i].numOfChildren == 0)
    ensures PolymorphismObjectFactor(rs) == Undefined <==>
            (forall i | 0 <= i < |rs| :: rs[i].numOfInheritedAndOverrideMethods == 0) &&
            (forall i | 0 <= i < |rs| :: rs[i].numOfNewMethods * rs[i].numOfChildren == 0)
  {
    SumZero(rs, InheritedAndOverrideMethods);
    SumZero(rs, NewMethodsTimesChildren);
  }

  /** What a complete analysis of the records holds: each factor with the
      sums it divides. */
  function SummaryOf(rs: seq<Record>): Summary
  {
    Summary(MethodInheritanceFactor(rs), MethodHidingFactor(rs), AttributeHidingFactor(rs),
            AttributeInheritanceFactor(rs), PolymorphismObjectFactor(rs),
            Sum(rs, InheritedAndNonOverrideMethods), Sum(rs, AccessibleMethods),
            Sum(rs, PrivateMethods), Sum(rs, OpenMethods), Sum(rs, PrivateFields), Sum(rs, Fields),
            Sum(rs, InheritedAndNonOverrideFields), Sum(rs, AccessibleFields),
            Sum(rs, InheritedAndOverrideMethods), Sum(rs, NewMethodsTimesChildren))
  }
}
