/**
 * The formula vault's search. The archive is a list of categories, each a
 * list of subtopics, each a list of formulas. Searching keeps a formula when
 * the query (case-insensitively) occurs in its name, its LaTeX text or its
 * subtopic's name, then drops the subtopics left without formulas and the
 * categories left without subtopics.
 */
module QuantVault {
  import opened Text
  import opened Lists

  datatype Formula = Formula(name: string, latex: string, description: string)

  datatype SubTopic = SubTopic(name: string, formulas: seq<Formula>)

  datatype FormulaCategory = FormulaCategory(id: string, title: string, subTopics: seq<SubTopic>)

  // ---------------------------------------------------------------------------
  // The filter, level by level

  /** The search keeps formula `f` of the subtopic named `subName`. */
  predicate Keeps(f: Formula, subName: string, q: string) {
    Contains(Lower(f.name), Lower(q)) || Contains(Lower(f.latex), Lower(q)) || Contains(Lower(subName), Lower(q))
  }

  /** `sub.formulas.filter(...)`. */
  function KeptFormulas(fs: seq<Formula>, subName: string, q: string): (r: seq<Formula>)
    ensures IsSubsequence(r, fs)
    ensures forall f :: f in r <==> f in fs && Keeps(f, subName, q)
    ensures forall f :: multiset(r)[f] == if Keeps(f, subName, q) then multiset(fs)[f] else 0
  {
    if fs == [] then []
    else
      assert fs == [fs[0]] + fs[1..];
      if Keeps(fs[0], subName, q) then [fs[0]] + KeptFormulas(fs[1..], subName, q)
      else KeptFormulas(fs[1..], subName, q)
  }

  /** `{ ...sub, formulas: ... }`: the subtopic with only its kept formulas. */
  function FilterSubTopic(sub: SubTopic, q: string): SubTopic {
    sub.(formulas := KeptFormulas(sub.formulas, sub.name, q))
  }

  /** `category.subTopics.map(...)`. */
  function MapSubTopics(subs: seq<SubTopic>, q: string): (r: seq<SubTopic>)
    ensures |r| == |subs|
    ensures forall i :: 0 <= i < |subs| ==> r[i] == FilterSubTopic(subs[i], q)
  {
    if subs == [] then [] else [FilterSubTopic(subs[0], q)] + MapSubTopics(subs[1..], q)
  }

  /** `.filter(sub => sub.formulas.length > 0)`. */
  function NonEmptySubTopics(ts: seq<SubTopic>): (r: seq<SubTopic>)
    ensures IsSubsequence(r, ts)
    ensures forall t :: t in r <==> t in ts && |t.formulas| > 0
    ensures forall t :: multiset(r)[t] == if |t.formulas| > 0 then multiset(ts)[t] else 0
  {
    if ts == [] then []
    else
      assert ts == [ts[0]] + ts[1..];
      if |ts[0].formulas| > 0 then [ts[0]] + NonEmptySubTopics(ts[1..])
      else NonEmptySubTopics(ts[1..])
  }

  /** `filteredSubTopics`. */
  function FilteredSubTopics(subs: seq<SubTopic>, q: string): seq<SubTopic> {
    NonEmptySubTopics(MapSubTopics(subs, q))
  }

  /** `{ ...category, subTopics: filteredSubTopics }`. */
  function FilterCategory(c: FormulaCategory, q: string): FormulaCategory {
    c.(subTopics := FilteredSubTopics(c.subTopics, q))
  }

  /** `formulaData.map(...)`. */
  function MapCategories(cs: seq<FormulaCategory>, q: string): (r: seq<FormulaCategory>)
    ensures |r| == |cs|
    ensures forall i :: 0 <= i < |cs| ==> r[i] == FilterCategory(cs[i], q)
  {
    if cs == [] then [] else [FilterCategory(cs[0], q)] + MapCategories(cs[1..], q)
  }

  /** `.filter(category => category.subTopics.length > 0)`. */
  function NonEmptyCategories(cs: seq<FormulaCategory>): (r: seq<FormulaCategory>)
    ensures IsSubsequence(r, cs)
    ensures forall c :: c in r <==> c in cs && |c.subTopics| > 0
    ensures forall c :: multiset(r)[c] == if |c.subTopics| > 0 then multiset(cs)[c] else 0
  {
    if cs == [] then []
    else
      assert cs == [cs[0]] + cs[1..];
      if |cs[0].subTopics| > 0 then [cs[0]] + NonEmptyCategories(cs[1..])
      else NonEmptyCategories(cs[1..])
  }

  /** `filteredCategories`: what the vault shows for query `q`. */
  function FilteredCategories(cs: seq<FormulaCategory>, q: string): (r: seq<FormulaCategory>)
    ensures forall c :: c in r <==> c in MapCategories(cs, q) && |c.subTopics| > 0
  {
    NonEmptyCategories(MapCategories(cs, q))
  }

  // ---------------------------------------------------------------------------
  // What survives

  /**
   * A subtopic survives, holding exactly its kept formulas, when one of its
   * formulas is kept; every surviving subtopic is such a filtered subtopic and
   * has formulas.
   */
  lemma SubTopicSurvival(subs: seq<SubTopic>, q: string)
    ensures forall s :: s in subs && |FilterSubTopic(s, q).formulas| > 0 ==> FilterSubTopic(s, q) in FilteredSubTopics(subs, q)
    ensures forall t :: t in FilteredSubTopics(subs, q) ==>
      |t.formulas| > 0 && exists s :: s in subs && t == FilterSubTopic(s, q)
  {
    var m := MapSubTopics(subs, q);
    forall s | s in subs && |FilterSubTopic(s, q).formulas| > 0
      ensures FilterSubTopic(s, q) in m
    {
      var i :| 0 <= i < |subs| && subs[i] == s;
      assert m[i] == FilterSubTopic(s, q);
    }
    forall t | t in FilteredSubTopics(subs, q)
      ensures exists s :: s in subs && t == FilterSubTopic(s, q)
    {
      var i :| 0 <= i < |m| && m[i] == t;
      assert subs[i] in subs;
    }
  }

  /** The same for categories: a category survives exactly when one of its subtopics does. */
  lemma CategorySurvival(cs: seq<FormulaCategory>, q: string)
    ensures forall c :: c in cs && |FilterCategory(c, q).subTopics| > 0 ==> FilterCategory(c, q) in FilteredCategories(cs, q)
    ensures forall d :: d in FilteredCategories(cs, q) ==>
      |d.subTopics| > 0 && exists c :: c in cs && d == FilterCategory(c, q)
  {
    var m := MapCategories(cs, q);
    forall c | c in cs && |FilterCategory(c, q).subTopics| > 0
      ensures FilterCategory(c, q) in m
    {
      var i :| 0 <= i < |cs| && cs[i] == c;
      assert m[i] == FilterCategory(c, q);
    }
    forall d | d in FilteredCategories(cs, q)
      ensures exists c :: c in cs && d == FilterCategory(c, q)
    {
      var i :| 0 <= i < |m| && m[i] == d;
      assert cs[i] in cs;
    }
  }

  /** A query found in a subtopic's name keeps every formula of that subtopic. */
  lemma {:induction false} SubTopicNameKeepsAll(fs: seq<Formula>, subName: string, q: string)
    requires Contains(Lower(subName), Lower(q))
    ensures KeptFormulas(fs, subName, q) == fs
  {
    if fs != [] {
      SubTopicNameKeepsAll(fs[1..], subName, q);
      assert [fs[0]] + fs[1..] == fs;
    }
  }

  // ---------------------------------------------------------------------------
  // The result is a sub-structure of the archive

  /** `t` is `s` with some formulas dropped and the rest in order. */
  predicate SubTopicWithin(t: SubTopic, s: SubTopic) {
    t.name == s.name && IsSubsequence(t.formulas, s.formulas)
  }

  /** `ts` embeds in order into `ss`, each element within the one it maps to. */
  predicate SubTopicsWithin(ts: seq<SubTopic>, ss: seq<SubTopic>)
    decreases |ss|
  {
    if ts == [] then true
    else if ss == [] then false
    else (SubTopicWithin(ts[0], ss[0]) && SubTopicsWithin(ts[1..], ss[1..])) || SubTopicsWithin(ts, ss[1..])
  }

  /** `d` is `c` with the same id and title and some subtopics within it. */
  predicate CategoryWithin(d: FormulaCategory, c: FormulaCategory) {
    d.id == c.id && d.title == c.title && SubTopicsWithin(d.subTopics, c.subTopics)
  }

  predicate CategoriesWithin(ds: seq<FormulaCategory>, cs: seq<FormulaCategory>)
    decreases |cs|
  {
    if ds == [] then true
    else if cs == [] then false
    else (CategoryWithin(ds[0], cs[0]) && CategoriesWithin(ds[1..], cs[1..])) || CategoriesWithin(ds, cs[1..])
  }

  lemma {:induction false} FilteredSubTopicsWithin(subs: seq<SubTopic>, q: string)
    ensures SubTopicsWithin(FilteredSubTopics(subs, q), subs)
  {
    if subs != [] {
      var head := FilterSubTopic(subs[0], q);
      FilteredSubTopicsWithin(subs[1..], q);
      assert MapSubTopics(subs, q)[1..] == MapSubTopics(subs[1..], q);
      if |head.formulas| > 0 {
        assert FilteredSubTopics(subs, q) == [head] + FilteredSubTopics(subs[1..], q);
      } else {
        assert FilteredSubTopics(subs, q) == FilteredSubTopics(subs[1..], q);
        SubTopicsWithinSkip(FilteredSubTopics(subs[1..], q), subs);
      }
    }
  }

  /** An embedding into the tail of a list is an embedding into the list. */
  lemma SubTopicsWithinSkip(ts: seq<SubTopic>, ss: seq<SubTopic>)
    requires ss != [] && SubTopicsWithin(ts, ss[1..])
    ensures SubTopicsWithin(ts, ss)
  {
  }

  /**
   * Searching only removes: the categories, their subtopics and their formulas
   * that are shown are those of the archive, in the archive's order, with
   * their ids, titles and names unchanged.
   */
  lemma {:induction false} FilteredWithin(cs: seq<FormulaCategory>, q: string)
    ensures CategoriesWithin(FilteredCategories(cs, q), cs)
  {
    if cs != [] {
      var head := FilterCategory(cs[0], q);
      FilteredWithin(cs[1..], q);
      assert MapCategories(cs, q)[1..] == MapCategories(cs[1..], q);
      if |head.subTopics| > 0 {
        FilteredSubTopicsWithin(cs[0].subTopics, q);
        assert FilteredCategories(cs, q) == [head] + FilteredCategories(cs[1..], q);
      } else {
        assert FilteredCategories(cs, q) == FilteredCategories(cs[1..], q);
      }
    }
  }

  // ---------------------------------------------------------------------------
  // The empty query

  /** No category of the archive is empty and no subtopic is empty. */
  predicate NoEmptyGroups(cs: seq<FormulaCategory>) {
    forall i :: 0 <= i < |cs| ==>
      |cs[i].subTopics| > 0 && (forall j :: 0 <= j < |cs[i].subTopics| ==> |cs[i].subTopics[j].formulas| > 0)
  }

  lemma {:induction false} EmptyQueryKeepsFormulas(fs: seq<Formula>, subName: string)
    ensures KeptFormulas(fs, subName, "") == fs
  {
    ContainsTrivial(Lower(subName));
    SubTopicNameKeepsAll(fs, subName, "");
  }

  /** Keeping the subtopics with formulas of a list whose every subtopic has formulas keeps all of them. */
  lemma {:induction false} NonEmptySubTopicsKeepsAll(subs: seq<SubTopic>)
    requires forall j :: 0 <= j < |subs| ==> |subs[j].formulas| > 0
    ensures NonEmptySubTopics(subs) == subs
  {
    if subs != [] {
      NonEmptySubTopicsKeepsAll(subs[1..]);
      assert [subs[0]] + subs[1..] == subs;
    }
  }

  lemma EmptyQueryKeepsSubTopics(subs: seq<SubTopic>)
    requires forall j :: 0 <= j < |subs| ==> |subs[j].formulas| > 0
    ensures FilteredSubTopics(subs, "") == subs
  {
    forall j | 0 <= j < |subs|
      ensures FilterSubTopic(subs[j], "") == subs[j]
    {
      EmptyQueryKeepsFormulas(subs[j].formulas, subs[j].name);
    }
    assert MapSubTopics(subs, "") == subs;
    NonEmptySubTopicsKeepsAll(subs);
  }

  /** Keeping the non-empty categories of a list without empty categories keeps all of them. */
  lemma {:induction false} NonEmptyCategoriesKeepsAll(cs: seq<FormulaCategory>)
    requires forall i :: 0 <= i < |cs| ==> |cs[i].subTopics| > 0
    ensures NonEmptyCategories(cs) == cs
  {
    if cs != [] {
      NonEmptyCategoriesKeepsAll(cs[1..]);
      assert [cs[0]] + cs[1..] == cs;
    }
  }

  /** With an empty search box, an archive without empty groups is shown whole. */
  lemma EmptyQueryKeepsAll(cs: seq<FormulaCategory>)
    requires NoEmptyGroups(cs)
    ensures FilteredCategories(cs, "") == cs
  {
    forall i | 0 <= i < |cs|
      ensures FilterCategory(cs[i], "") == cs[i]
    {
      EmptyQueryKeepsSubTopics(cs[i].subTopics);
    }
    assert MapCategories(cs, "") == cs;
    NonEmptyCategoriesKeepsAll(cs);
  }

  // ---------------------------------------------------------------------------
  // The rule count

  /** `subTopics.reduce((acc, sub) => acc + sub.formulas.length, 0)`. */
  function RuleCount(subs: seq<SubTopic>): (n: nat)
    ensures n == 0 <==> forall i :: 0 <= i < |subs| ==> subs[i].formulas == []
  {
    if subs == [] then 0 else |subs[0].formulas| + RuleCount(subs[1..])
  }

  /** Dropping the subtopics without formulas does not change the count. */
  lemma {:induction false} NonEmptyRuleCount(ts: seq<SubTopic>)
    ensures RuleCount(NonEmptySubTopics(ts)) == RuleCount(ts)
  {
    if ts != [] {
      NonEmptyRuleCount(ts[1..]);
    }
  }

  /**
   * The count shown for a filtered category is the number of the category's
   * formulas the search keeps, and never more than the category holds.
   */
  lemma {:induction false} FilteredRuleCount(subs: seq<SubTopic>, q: string)
    ensures RuleCount(FilteredSubTopics(subs, q)) == RuleCount(MapSubTopics(subs, q))
    ensures RuleCount(FilteredSubTopics(subs, q)) <= RuleCount(subs)
  {
    NonEmptyRuleCount(MapSubTopics(subs, q));
    MappedRuleCount(subs, q);
  }

  lemma {:induction false} MappedRuleCount(subs: seq<SubTopic>, q: string)
    ensures RuleCount(MapSubTopics(subs, q)) <= RuleCount(subs)
  {
    if subs != [] {
      MappedRuleCount(subs[1..], q);
      SubsequenceMembers(KeptFormulas(subs[0].formulas, subs[0].name, q), subs[0].formulas);
      assert MapSubTopics(subs, q)[1..] == MapSubTopics(subs[1..], q);
    }
  }
}
