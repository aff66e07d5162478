/**
 * The syllabus tracker: topics ticked off one at a time, grouped under quants
 * and verbal, with the quant topics further sorted into units by their labels.
 */
module Progress {
  import opened Wrappers
  import opened Text
  import opened Lists
  import opened Numbers
  import opened Records
  import opened Storage

  // ---------------------------------------------------------------------------
  // Toggling a topic

  /** `toggleItem`'s `map`: the completed flag flips on every item with that id. */
  function Toggle(items: seq<ProgressItem>, id: string): (r: seq<ProgressItem>)
    ensures |r| == |items|
    ensures forall i :: 0 <= i < |r| ==>
      r[i].id == items[i].id && r[i].topic == items[i].topic && r[i].category == items[i].category
      && r[i].completed == (if items[i].id == id then !items[i].completed else items[i].completed)
  {
    if items == [] then []
    else
      var x := items[0];
      [if x.id == id then x.(completed := !x.completed) else x] + Toggle(items[1..], id)
  }

  /** Toggling the same id twice restores the list. */
  lemma ToggleTwice(items: seq<ProgressItem>, id: string)
    ensures Toggle(Toggle(items, id), id) == items
  {
  }

  /** Toggling an id no item carries changes nothing. */
  lemma ToggleAbsent(items: seq<ProgressItem>, id: string)
    requires forall i :: 0 <= i < |items| ==> items[i].id != id
    ensures Toggle(items, id) == items
  {
  }

  // ---------------------------------------------------------------------------
  // Units

  /** The units of the quant syllabus offered by the unit selector, and the fallback. */
  datatype Unit = Algebra | Arithmetic | Geometry | Lrdi | ModernMath | NumberSystem | Other

  predicate AlgebraKeyword(topic: string) {
    Contains(topic, "Progression") || Contains(topic, "Functions") || Contains(topic, "Modulus")
    || Contains(topic, "Inequalities") || Contains(topic, "Indices") || Contains(topic, "Minima")
    || Contains(topic, "Identities")
  }

  predicate GeometryKeyword(topic: string) {
    Contains(topic, "Trigonometry") || Contains(topic, "Conic Sections")
  }

  predicate ModernMathKeyword(topic: string) {
    Contains(topic, "Logarithm") || Contains(topic, "Binomial")
  }

  /** The unit prefixes, tried first and in this order. */
  predicate HasUnitPrefix(topic: string) {
    StartsWith(topic, "Algebra") || StartsWith(topic, "Arithmetic") || StartsWith(topic, "Geometry")
    || StartsWith(topic, "LRDI") || StartsWith(topic, "Modern Math") || StartsWith(topic, "Number System")
  }

  /** `getUnitCategory`: the first matching test decides. */
  function UnitOf(topic: string): (u: Unit)
    ensures u == Other <==>
      !HasUnitPrefix(topic) && !AlgebraKeyword(topic) && !GeometryKeyword(topic) && !ModernMathKeyword(topic)
    ensures !HasUnitPrefix(topic) && AlgebraKeyword(topic) ==> u == Algebra
  {
    if StartsWith(topic, "Algebra") then Algebra
    else if StartsWith(topic, "Arithmetic") then Arithmetic
    else if StartsWith(topic, "Geometry") then Geometry
    else if StartsWith(topic, "LRDI") then Lrdi
    else if StartsWith(topic, "Modern Math") then ModernMath
    else if StartsWith(topic, "Number System") then NumberSystem
    else if AlgebraKeyword(topic) then Algebra
    else if GeometryKeyword(topic) then Geometry
    else if ModernMathKeyword(topic) then ModernMath
    else Other
  }

  /** A unit prefix wins over any keyword later in the label. */
  lemma PrefixWins(topic: string)
    requires HasUnitPrefix(topic)
    ensures UnitOf(topic) != Other
    ensures StartsWith(topic, "Geometry") && !StartsWith(topic, "Algebra") && !StartsWith(topic, "Arithmetic") ==> UnitOf(topic) == Geometry
  {
  }

  lemma AlgebraExample()
    ensures UnitOf("Algebra - Linear Equations") == Algebra
  {
    assert StartsWith("Algebra - Linear Equations", "Algebra");
  }

  /** A topic whose first letter begins no unit name has no unit prefix. */
  lemma NoUnitPrefix(topic: string)
    requires topic != [] && topic[0] != 'A' && topic[0] != 'G' && topic[0] != 'L' && topic[0] != 'M' && topic[0] != 'N'
    ensures !HasUnitPrefix(topic)
  {
    DiffersAt(topic, "Algebra", 0);
    DiffersAt(topic, "Arithmetic", 0);
    DiffersAt(topic, "Geometry", 0);
    DiffersAt(topic, "LRDI", 0);
    DiffersAt(topic, "Modern Math", 0);
    DiffersAt(topic, "Number System", 0);
  }

  /** A topic without the capitals `P`, `F`, `M` and `I` holds no algebra keyword. */
  lemma NoAlgebraKeyword(topic: string)
    requires 'P' !in topic && 'F' !in topic && 'M' !in topic && 'I' !in topic
    ensures !AlgebraKeyword(topic)
  {
    AbsentCharNotContains(topic, "Progression", 0);
    AbsentCharNotContains(topic, "Functions", 0);
    AbsentCharNotContains(topic, "Modulus", 0);
    AbsentCharNotContains(topic, "Inequalities", 0);
    AbsentCharNotContains(topic, "Indices", 0);
    AbsentCharNotContains(topic, "Minima", 0);
    AbsentCharNotContains(topic, "Identities", 0);
  }

  /** A topic without the capitals `T`, `S`, `L` and `B` holds no geometry or modern-math keyword. */
  lemma NoLaterKeyword(topic: string)
    requires 'T' !in topic && 'S' !in topic && 'L' !in topic && 'B' !in topic
    ensures !GeometryKeyword(topic) && !ModernMathKeyword(topic)
  {
    AbsentCharNotContains(topic, "Trigonometry", 0);
    AbsentCharNotContains(topic, "Conic Sections", 6);
    AbsentCharNotContains(topic, "Logarithm", 0);
    AbsentCharNotContains(topic, "Binomial", 0);
  }

  /** A label that is exactly a geometry keyword and starts with no other test's word is geometry. */
  lemma GeometryByKeyword(topic: string)
    requires !HasUnitPrefix(topic) && !AlgebraKeyword(topic) && GeometryKeyword(topic)
    ensures UnitOf(topic) == Geometry
  {
  }

  lemma TrigonometryExample()
    ensures UnitOf("Trigonometry") == Geometry
  {
    var t := "Trigonometry";
    NoUnitPrefix(t);
    NoAlgebraKeyword(t);
    ContainsTrivial(t);
    GeometryByKeyword(t);
  }

  lemma VerbalNoPrefix()
    ensures !HasUnitPrefix("Reading Comprehension")
  {
    NoUnitPrefix("Reading Comprehension");
  }

  lemma VerbalNoAlgebra()
    ensures !AlgebraKeyword("Reading Comprehension")
  {
    NoAlgebraKeyword("Reading Comprehension");
  }

  lemma VerbalNoLater()
    ensures !GeometryKeyword("Reading Comprehension") && !ModernMathKeyword("Reading Comprehension")
  {
    NoLaterKeyword("Reading Comprehension");
  }

  lemma VerbalExample()
    ensures UnitOf("Reading Comprehension") == Other
  {
    VerbalNoPrefix();
    VerbalNoAlgebra();
    VerbalNoLater();
  }

  // ---------------------------------------------------------------------------
  // Every quant topic of the seed lands in the unit of its run

  /** When every label made of `p` and a suffix has unit `u`, so does every label of a prefixed run. */
  lemma PrefixedUnit(p: string, suffixes: seq<string>, u: Unit)
    requires forall s :: UnitOf(p + s) == u
    ensures forall t :: t in Prefixed(p, suffixes) ==> UnitOf(t) == u
  {
    forall t | t in Prefixed(p, suffixes)
      ensures UnitOf(t) == u
    {
      var i :| 0 <= i < |suffixes| && Prefixed(p, suffixes)[i] == t;
      assert t == p + suffixes[i];
    }
  }

  lemma AlgebraLabels()
    ensures forall s :: UnitOf("Algebra - " + s) == Algebra
  {
    forall s ensures UnitOf("Algebra - " + s) == Algebra {
      StartsWithAppend("Algebra - ", s, "Algebra");
    }
  }

  lemma ArithmeticLabels()
    ensures forall s :: UnitOf("Arithmetic - " + s) == Arithmetic
  {
    forall s ensures UnitOf("Arithmetic - " + s) == Arithmetic {
      var t := "Arithmetic - " + s;
      DiffersAt(t, "Algebra", 1);
      StartsWithAppend("Arithmetic - ", s, "Arithmetic");
    }
  }

  lemma GeometryLabels()
    ensures forall s :: UnitOf("Geometry - " + s) == Geometry
  {
    forall s ensures UnitOf("Geometry - " + s) == Geometry {
      var t := "Geometry - " + s;
      DiffersAt(t, "Algebra", 0);
      DiffersAt(t, "Arithmetic", 0);
      StartsWithAppend("Geometry - ", s, "Geometry");
    }
  }

  lemma LrdiLabels()
    ensures forall s :: UnitOf("LRDI - " + s) == Lrdi
  {
    forall s ensures UnitOf("LRDI - " + s) == Lrdi {
      var t := "LRDI - " + s;
      DiffersAt(t, "Algebra", 0);
      DiffersAt(t, "Arithmetic", 0);
      DiffersAt(t, "Geometry", 0);
      StartsWithAppend("LRDI - ", s, "LRDI");
    }
  }

  lemma ModernMathLabels()
    ensures forall s :: UnitOf("Modern Math - " + s) == ModernMath
  {
    forall s ensures UnitOf("Modern Math - " + s) == ModernMath {
      var t := "Modern Math - " + s;
      DiffersAt(t, "Algebra", 0);
      DiffersAt(t, "Arithmetic", 0);
      DiffersAt(t, "Geometry", 0);
      DiffersAt(t, "LRDI", 0);
      StartsWithAppend("Modern Math - ", s, "Modern Math");
    }
  }

  lemma NumberSystemLabels()
    ensures forall s :: UnitOf("Number System - " + s) == NumberSystem
  {
    forall s ensures UnitOf("Number System - " + s) == NumberSystem {
      var t := "Number System - " + s;
      DiffersAt(t, "Algebra", 0);
      DiffersAt(t, "Arithmetic", 0);
      DiffersAt(t, "Geometry", 0);
      DiffersAt(t, "LRDI", 0);
      DiffersAt(t, "Modern Math", 0);
      StartsWithAppend("Number System - ", s, "Number System");
    }
  }

  /** A label holding any keyword is never `Other`, whatever its prefix. */
  lemma KeywordClassified(topic: string)
    requires AlgebraKeyword(topic) || GeometryKeyword(topic) || ModernMathKeyword(topic)
    ensures UnitOf(topic) != Other
  {
  }

  /** The algebra run: four keyword topics, two `Algebra - ` labels, three more keyword topics. */
  lemma AlgebraRunClassified()
    ensures forall t :: t in AlgebraRun() ==> UnitOf(t) != Other
  {
    AlgebraLabels();
    PrefixedUnit("Algebra - ", AlgebraSubtopics(), Algebra);
    forall t | t in AlgebraRun()
      ensures UnitOf(t) != Other
    {
      if t == "Progression & Series" {
        PrefixContained(t, "Progression");
        KeywordClassified(t);
      } else if t == "Minima & Maxima" {
        PrefixContained(t, "Minima");
        KeywordClassified(t);
      } else if t == "Functions" || t == "Modulus" || t == "Inequalities" || t == "Indices" || t == "Identities" {
        ContainsTrivial(t);
        KeywordClassified(t);
      }
    }
  }

  lemma ArithmeticRunUnit()
    ensures forall t :: t in ArithmeticRun() ==> UnitOf(t) == Arithmetic
  {
    ArithmeticLabels();
    PrefixedUnit("Arithmetic - ", ArithmeticSubtopics(), Arithmetic);
  }

  /** The geometry run: trigonometry, six `Geometry - ` labels, conic sections. */
  lemma GeometryRunClassified()
    ensures forall t :: t in GeometryRun() ==> UnitOf(t) != Other
  {
    GeometryLabels();
    PrefixedUnit("Geometry - ", GeometrySubtopics(), Geometry);
    forall t | t in GeometryRun()
      ensures UnitOf(t) != Other
    {
      if t == "Trigonometry" || t == "Conic Sections" {
        ContainsTrivial(t);
        KeywordClassified(t);
      }
    }
  }

  /** The modern-math run: four `Modern Math - ` labels, logarithms, the binomial theorem. */
  lemma ModernMathRunClassified()
    ensures forall t :: t in ModernMathRun() ==> UnitOf(t) != Other
  {
    ModernMathLabels();
    PrefixedUnit("Modern Math - ", ModernMathSubtopics(), ModernMath);
    forall t | t in ModernMathRun()
      ensures UnitOf(t) != Other
    {
      if t == "Logarithm" {
        ContainsTrivial(t);
        KeywordClassified(t);
      } else if t == "Binomial Theorem" {
        PrefixContained(t, "Binomial");
        KeywordClassified(t);
      }
    }
  }

  lemma NumberSystemRunUnit()
    ensures forall t :: t in NumberSystemRun() ==> UnitOf(t) == NumberSystem
  {
    NumberSystemLabels();
    PrefixedUnit("Number System - ", NumberSystemSubtopics(), NumberSystem);
  }

  lemma LrdiTopicsUnit()
    ensures forall t :: t in LrdiTopics() ==> UnitOf(t) == Lrdi
  {
    LrdiLabels();
    PrefixedUnit("LRDI - ", LrdiSubtopics(), Lrdi);
  }

  /** No quant topic of the seed falls to `Other`. */
  lemma QuantTopicsClassified()
    ensures forall t :: t in QuantTopics() ==> UnitOf(t) != Other
  {
    AlgebraRunClassified();
    ArithmeticRunUnit();
    GeometryRunClassified();
    ModernMathRunClassified();
    NumberSystemRunUnit();
  }

  /** Over any topic lists of the seed's lengths, classified quant and reasoning lists classify every quant item. */
  lemma SeedOfClassified(quants: seq<string>, lrdi: seq<string>, verbal: seq<string>)
    requires SeedSized(quants, lrdi, verbal)
    requires forall t :: t in quants ==> UnitOf(t) != Other
    requires forall t :: t in lrdi ==> UnitOf(t) != Other
    ensures forall i :: 0 <= i < |SeedOf(quants, lrdi, verbal)| && SeedOf(quants, lrdi, verbal)[i].category == Quants ==>
      UnitOf(SeedOf(quants, lrdi, verbal)[i].topic) != Other
  {
    SeedItemOf(quants, lrdi, verbal, 0);
    forall i | 0 <= i < 50 && SeedOf(quants, lrdi, verbal)[i].category == Quants
      ensures UnitOf(SeedOf(quants, lrdi, verbal)[i].topic) != Other
    {
      SeedItemOf(quants, lrdi, verbal, i);
      if i < 37 {
        assert quants[i] in quants;
      } else {
        assert lrdi[i - 37] in lrdi;
      }
    }
  }

  /** Each of the 42 quant topics of the seed falls in one of the six selectable units. */
  lemma SeedQuantsClassified()
    ensures |DefaultProgress()| == 50
    ensures forall i :: 0 <= i < 50 && DefaultProgress()[i].category == Quants ==> UnitOf(DefaultProgress()[i].topic) != Other
  {
    SeedListsSized();
    SeedItemOf(QuantTopics(), LrdiTopics(), VerbalTopics(), 0);
    QuantTopicsClassified();
    LrdiTopicsUnit();
    SeedOfClassified(QuantTopics(), LrdiTopics(), VerbalTopics());
  }

  // ---------------------------------------------------------------------------
  // The quant/verbal split and the unit filter

  /** `progressItems.filter(item => item.category === c)`. */
  function OfCategory(items: seq<ProgressItem>, c: Category): (r: seq<ProgressItem>)
    ensures IsSubsequence(r, items)
    ensures forall x :: x in r <==> x in items && x.category == c
    ensures forall x :: multiset(r)[x] == if x.category == c then multiset(items)[x] else 0
    ensures |r| == CountCategory(items, c)
  {
    if items == [] then []
    else
      assert items == [items[0]] + items[1..];
      if items[0].category == c then [items[0]] + OfCategory(items[1..], c)
      else OfCategory(items[1..], c)
  }

  /** `quantItems.filter(item => getUnitCategory(item.label) === u)`. */
  function OfUnit(items: seq<ProgressItem>, u: Unit): (r: seq<ProgressItem>)
    ensures IsSubsequence(r, items)
    ensures forall x :: x in r <==> x in items && UnitOf(x.topic) == u
    ensures forall x :: multiset(r)[x] == if UnitOf(x.topic) == u then multiset(items)[x] else 0
  {
    if items == [] then []
    else
      assert items == [items[0]] + items[1..];
      if UnitOf(items[0].topic) == u then [items[0]] + OfUnit(items[1..], u)
      else OfUnit(items[1..], u)
  }

  /** The unit selector: `'all'` or one unit. */
  datatype UnitChoice = AllUnits | OnlyUnit(unit: Unit)

  /** `filteredQuantItems`. */
  function ShownQuantItems(items: seq<ProgressItem>, choice: UnitChoice): (r: seq<ProgressItem>)
    ensures forall x :: multiset(r)[x] ==
                        if x.category == Quants && (choice.OnlyUnit? ==> UnitOf(x.topic) == choice.unit) then multiset(items)[x] else 0
  {
    var quant := OfCategory(items, Quants);
    match choice
    case AllUnits => quant
    case OnlyUnit(u) => OfUnit(quant, u)
  }

  /** The shown quant items keep the stored order, are never verbal, and are exactly the quant items of the chosen unit. */
  lemma ShownQuantItemsSpec(items: seq<ProgressItem>, choice: UnitChoice)
    ensures IsSubsequence(ShownQuantItems(items, choice), items)
    ensures forall x :: x in ShownQuantItems(items, choice) <==>
      x in items && x.category == Quants && (choice.OnlyUnit? ==> UnitOf(x.topic) == choice.unit)
    ensures choice == AllUnits ==> ShownQuantItems(items, choice) == OfCategory(items, Quants)
  {
    var quant := OfCategory(items, Quants);
    if choice.OnlyUnit? {
      SubsequenceTrans(OfUnit(quant, choice.unit), quant, items);
    }
  }

  // ---------------------------------------------------------------------------
  // Counts and percentages

  /** `items.filter(item => item.completed).length`. */
  function CompletedCount(items: seq<ProgressItem>): (n: nat)
    ensures n <= |items|
    ensures n == |items| <==> forall i :: 0 <= i < |items| ==> items[i].completed
  {
    if items == [] then 0 else (if items[0].completed then 1 else 0) + CompletedCount(items[1..])
  }

  /** Every item is either quants or verbal, so the two completed counts add up to the overall one. */
  lemma {:induction false} CompletedSplit(items: seq<ProgressItem>)
    ensures CompletedCount(OfCategory(items, Quants)) + CompletedCount(OfCategory(items, Verbal)) == CompletedCount(items)
    ensures |OfCategory(items, Quants)| + |OfCategory(items, Verbal)| == |items|
  {
    if items != [] {
      CompletedSplit(items[1..]);
      var x := items[0];
      if x.category == Quants {
        assert OfCategory(items, Quants) == [x] + OfCategory(items[1..], Quants);
        assert ([x] + OfCategory(items[1..], Quants))[1..] == OfCategory(items[1..], Quants);
      } else {
        assert OfCategory(items, Verbal) == [x] + OfCategory(items[1..], Verbal);
        assert ([x] + OfCategory(items[1..], Verbal))[1..] == OfCategory(items[1..], Verbal);
      }
    }
  }

  /** `Math.round(c / t * 100)` for a group of `t` items of which `c` are done, and 0 for an empty group. */
  function Percent(c: nat, t: nat): (r: int)
    requires c <= t
    ensures t == 0 ==> r == 0
    ensures t > 0 ==> 2 * t * r <= 200 * c + t < 2 * t * r + 2 * t
    ensures 0 <= r <= 100
    ensures t > 0 && c == t ==> r == 100
    ensures t > 0 && c == 0 ==> r == 0
  {
    if t == 0 then 0
    else
      RoundDivMonotone(0, 100 * c, t);
      RoundDivMonotone(100 * c, 100 * t, t);
      RoundDivExact(0, t);
      RoundDivExact(100, t);
      RoundDiv(100 * c, t)
  }

  /** The three cards at the top of the tracker. */
  datatype Summary = Summary(
    quantCompleted: nat, verbalCompleted: nat, totalCompleted: nat, totalItems: nat,
    overall: int, quant: int, verbal: int)

  function Summarize(items: seq<ProgressItem>): (s: Summary)
    ensures s.totalItems == |items|
    ensures s.totalCompleted == s.quantCompleted + s.verbalCompleted == CompletedCount(items) <= s.totalItems
    ensures s.quantCompleted == CompletedCount(OfCategory(items, Quants))
    ensures s.verbalCompleted == CompletedCount(OfCategory(items, Verbal))
    ensures 0 <= s.overall <= 100 && 0 <= s.quant <= 100 && 0 <= s.verbal <= 100
    ensures items == [] ==> s.overall == 0
    ensures items != [] && CompletedCount(items) == |items| ==> s.overall == 100
    ensures s.overall == Percent(s.totalCompleted, s.totalItems)
    ensures s.quant == Percent(s.quantCompleted, |OfCategory(items, Quants)|)
    ensures s.verbal == Percent(s.verbalCompleted, |OfCategory(items, Verbal)|)
  {
    var quant := OfCategory(items, Quants);
    var verbal := OfCategory(items, Verbal);
    CompletedSplit(items);
    var qc := CompletedCount(quant);
    var vc := CompletedCount(verbal);
    var done := CompletedCount(items);
    Summary(qc, vc, done, |items|, Percent(done, |items|), Percent(qc, |quant|), Percent(vc, |verbal|))
  }

  // ---------------------------------------------------------------------------
  // The component

  /** `ProgressTracker`: the loaded list, the selected unit, and the store it writes back to. */
  class ProgressTracker {
    var items: seq<ProgressItem>
    var selected: UnitChoice
    const store: RecordStore

    /** The first render: an empty list and every unit shown. */
    constructor (store: RecordStore)
      ensures items == [] && selected == AllUnits && this.store == store
    {
      items := [];
      selected := AllUnits;
      this.store := store;
    }

    /** The mount effect: the stored list, or the error that reading it raises. */
    method Mount() returns (failure: Option<StoreError>)
      modifies this
      ensures store.GetProgress().Success? ==> items == store.GetProgress().value && failure == None
      ensures store.GetProgress().Failure? ==> items == old(items) && failure == Some(store.GetProgress().error)
      ensures selected == old(selected)
    {
      var read := store.GetProgress();
      match read
      case Success(v) =>
        items := v;
        failure := None;
      case Failure(e) =>
        failure := Some(e);
    }

    /** `toggleItem`: flip the item in the state and write the whole list back. */
    method ToggleItem(id: string)
      modifies this, store
      ensures items == Toggle(old(items), id)
      ensures selected == old(selected)
      ensures store.entries == old(store.entries)[ProgressKey := Write(ListToJson(items, ProgressToJson))]
      ensures store.GetProgress() == Success(items)
    {
      items := Toggle(items, id);
      store.SetProgress(items);
    }

    method SelectUnit(choice: UnitChoice)
      modifies this
      ensures selected == choice && items == old(items)
    {
      selected := choice;
    }

    function ShownQuant(): seq<ProgressItem>
      reads this
    {
      ShownQuantItems(items, selected)
    }

    function View(): Summary
      reads this
    {
      Summarize(items)
    }
  }
}
