/**
 * The mock-test log: scores entered section by section, listed newest first,
 * sorted on demand by date or total, and summarised by average and best.
 */
module MockScores {
  import opened Wrappers
  import opened Text
  import opened Lists
  import opened Numbers
  import opened Records
  import opened Storage

  // ---------------------------------------------------------------------------
  // Entering a score

  /** The dialog's fields. Section marks are the raw texts typed; an unset date is `None`. */
  datatype ScoreForm = ScoreForm(
    mockName: string, examType: ExamType, date: Option<int>,
    sa: string, mcq: string, qa: string, va: string, lr: string)

  /** The dialog as first shown, and after every submission: all texts empty, Indore selected. */
  function EmptyForm(examType: ExamType): ScoreForm {
    ScoreForm("", examType, None, "", "", "", "", "")
  }

  /** The sum of the sections a breakdown holds. */
  function SectionSum(b: Breakdown): int {
    b.va + (if b.sa.Some? then b.sa.value else 0) + (if b.mcq.Some? then b.mcq.value else 0)
    + (if b.qa.Some? then b.qa.value else 0) + (if b.lr.Some? then b.lr.value else 0)
  }

  /** `handleSubmit`'s record: Indore keeps short-answer and MCQ marks, the other exams quants and reasoning. */
  function NewScore(form: ScoreForm, id: string, date: int): (m: MockScore)
    ensures m.id == id && m.mockName == form.mockName && m.examType == form.examType && m.date == date
    ensures m.breakdown.va == ParseIntOrZero(form.va)
    ensures m.examType == Indore ==>
      m.breakdown.sa == Some(ParseIntOrZero(form.sa)) && m.breakdown.mcq == Some(ParseIntOrZero(form.mcq))
      && m.breakdown.qa.None? && m.breakdown.lr.None?
    ensures m.examType != Indore ==>
      m.breakdown.qa == Some(ParseIntOrZero(form.qa)) && m.breakdown.lr == Some(ParseIntOrZero(form.lr))
      && m.breakdown.sa.None? && m.breakdown.mcq.None?
    ensures m.totalScore == SectionSum(m.breakdown)
  {
    var sa := ParseIntOrZero(form.sa);
    var mcq := ParseIntOrZero(form.mcq);
    var qa := ParseIntOrZero(form.qa);
    var va := ParseIntOrZero(form.va);
    var lr := ParseIntOrZero(form.lr);
    if form.examType == Indore then
      MockScore(id, form.mockName, form.examType, date, Breakdown(va, Some(sa), Some(mcq), None, None), sa + mcq + va)
    else
      MockScore(id, form.mockName, form.examType, date, Breakdown(va, None, None, Some(qa), Some(lr)), qa + va + lr)
  }

  /** Short-answer 10, MCQ 8 and verbal 5 make an Indore total of 23. */
  lemma IndoreExample()
    ensures NewScore(ScoreForm("Mock 1", Indore, Some(0), "10", "8", "", "5", ""), "1", 0).totalScore == 23
  {
    IntRoundTrip(10);
    IntRoundTrip(8);
    IntRoundTrip(5);
    assert IntToDecimal(10) == "10" && IntToDecimal(8) == "8" && IntToDecimal(5) == "5";
  }

  /** Quants 12, reasoning 6 and verbal 7 make a Rohtak total of 25. */
  lemma RohtakExample()
    ensures NewScore(ScoreForm("Mock 2", Rohtak, Some(0), "", "", "12", "7", "6"), "2", 0).totalScore == 25
  {
    IntRoundTrip(12);
    IntRoundTrip(6);
    IntRoundTrip(7);
    assert IntToDecimal(12) == "12" && IntToDecimal(6) == "6" && IntToDecimal(7) == "7";
  }

  /** A section left blank, or filled with text that has no digit, counts as 0. */
  lemma BlankSectionsCountZero(form: ScoreForm, id: string, date: int)
    requires form.examType == Indore && form.va == "" && form.sa == ""
    requires forall i :: 0 <= i < |form.mcq| ==> !IsDigitIn(form.mcq[i], 10)
    ensures NewScore(form, id, date).totalScore == 0
  {
    NoDigitsReadsZero("");
    NoDigitsReadsZero(form.mcq);
  }

  // ---------------------------------------------------------------------------
  // Removing a score

  /** `scores.filter(s => s.id !== id)`. */
  function WithoutId(scores: seq<MockScore>, id: string): (r: seq<MockScore>)
    ensures IsSubsequence(r, scores)
    ensures forall m :: m in r <==> m in scores && m.id != id
    ensures forall m :: multiset(r)[m] == if m.id != id then multiset(scores)[m] else 0
  {
    if scores == [] then []
    else
      assert scores == [scores[0]] + scores[1..];
      if scores[0].id != id then [scores[0]] + WithoutId(scores[1..], id)
      else WithoutId(scores[1..], id)
  }

  /** Deleting an id no score carries changes nothing. */
  lemma {:induction false} WithoutAbsentId(scores: seq<MockScore>, id: string)
    requires forall i :: 0 <= i < |scores| ==> scores[i].id != id
    ensures WithoutId(scores, id) == scores
  {
    if scores != [] {
      WithoutAbsentId(scores[1..], id);
      assert [scores[0]] + scores[1..] == scores;
    }
  }

  // ---------------------------------------------------------------------------
  // Sorting

  datatype SortField = ByDate | ByTotal
  datatype SortDirection = Ascending | Descending

  /** The header-click state: which column, which way. */
  datatype SortState = SortState(field: SortField, direction: SortDirection)

  /** The first render sorts by date, newest first. */
  function InitialSort(): SortState {
    SortState(ByDate, Descending)
  }

  function Flip(d: SortDirection): SortDirection {
    if d == Ascending then Descending else Ascending
  }

  /** `handleSort`: the same column flips the direction, another column starts descending. */
  function HandleSort(s: SortState, field: SortField): (r: SortState)
    ensures r.field == field
    ensures field == s.field ==> r.direction != s.direction
    ensures field != s.field ==> r.direction == Descending
  {
    if s.field == field then SortState(field, Flip(s.direction)) else SortState(field, Descending)
  }

  /** Clicking the current column twice restores the state. */
  lemma SortClickTwice(s: SortState)
    ensures HandleSort(HandleSort(s, s.field), s.field) == s
  {
  }

  function Key(m: MockScore, field: SortField): int {
    if field == ByDate then m.date else m.totalScore
  }

  /**
   * The comparator's sign as a number to sort ascending by: the key itself, or
   * its negation for the descending order (`-comparison`).
   */
  function Rank(m: MockScore, s: SortState): int {
    if s.direction == Ascending then Key(m, s.field) else -Key(m, s.field)
  }

  predicate SortedBy(xs: seq<MockScore>, s: SortState) {
    forall i, j :: 0 <= i < j < |xs| ==> Rank(xs[i], s) <= Rank(xs[j], s)
  }

  /** Places `x` before the first element that does not rank below it. */
  function Insert(x: MockScore, xs: seq<MockScore>, s: SortState): (r: seq<MockScore>)
    ensures multiset(r) == multiset(xs) + multiset{x}
  {
    if xs == [] || Rank(x, s) <= Rank(xs[0], s) then [x] + xs
    else
      assert xs == [xs[0]] + xs[1..];
      [xs[0]] + Insert(x, xs[1..], s)
  }

  /** Inserting into a sorted list keeps it sorted. */
  lemma {:induction false} InsertSorted(x: MockScore, xs: seq<MockScore>, s: SortState)
    requires SortedBy(xs, s)
    ensures SortedBy(Insert(x, xs, s), s)
  {
    if xs != [] && Rank(x, s) > Rank(xs[0], s) {
      var rest := Insert(x, xs[1..], s);
      InsertSorted(x, xs[1..], s);
      forall j | 0 <= j < |rest|
        ensures Rank(xs[0], s) <= Rank(rest[j], s)
      {
        assert rest[j] in multiset(rest);
        if rest[j] != x {
          assert rest[j] in multiset(xs[1..]);
          var k :| 0 <= k < |xs[1..]| && xs[1..][k] == rest[j];
          assert xs[k + 1] == rest[j];
        }
      }
      var r := [xs[0]] + rest;
      assert forall i :: 1 <= i < |r| ==> r[i] == rest[i - 1];
    }
  }

  /** `[...scores].sort(comparator)`: a stable sort of a copy. */
  function SortScores(xs: seq<MockScore>, s: SortState): (r: seq<MockScore>)
    ensures multiset(r) == multiset(xs)
    ensures SortedBy(r, s)
  {
    if xs == [] then []
    else
      assert xs == [xs[0]] + xs[1..];
      InsertSorted(xs[0], SortScores(xs[1..], s), s);
      Insert(xs[0], SortScores(xs[1..], s), s)
  }

  /** The scores of one rank, in list order. */
  function OfRank(xs: seq<MockScore>, s: SortState, k: int): seq<MockScore> {
    if xs == [] then []
    else if Rank(xs[0], s) == k then [xs[0]] + OfRank(xs[1..], s, k)
    else OfRank(xs[1..], s, k)
  }

  lemma {:induction false} InsertOfRank(x: MockScore, xs: seq<MockScore>, s: SortState, k: int)
    ensures OfRank(Insert(x, xs, s), s, k) == if Rank(x, s) == k then [x] + OfRank(xs, s, k) else OfRank(xs, s, k)
  {
    if xs == [] || Rank(x, s) <= Rank(xs[0], s) {
      assert ([x] + xs)[1..] == xs;
    } else {
      InsertOfRank(x, xs[1..], s, k);
      var rest := Insert(x, xs[1..], s);
      assert ([xs[0]] + rest)[1..] == rest;
    }
  }

  /** Stability: scores that tie on the sort key keep their original relative order. */
  lemma {:induction false} SortStable(xs: seq<MockScore>, s: SortState, k: int)
    ensures OfRank(SortScores(xs, s), s, k) == OfRank(xs, s, k)
  {
    if xs != [] {
      SortStable(xs[1..], s, k);
      InsertOfRank(xs[0], SortScores(xs[1..], s), s, k);
    }
  }

  /** Ascending puts the keys in non-decreasing order, descending in non-increasing order. */
  lemma SortDirectionMeaning(xs: seq<MockScore>, s: SortState)
    ensures s.direction == Ascending ==>
      forall i, j :: 0 <= i < j < |SortScores(xs, s)| ==> Key(SortScores(xs, s)[i], s.field) <= Key(SortScores(xs, s)[j], s.field)
    ensures s.direction == Descending ==>
      forall i, j :: 0 <= i < j < |SortScores(xs, s)| ==> Key(SortScores(xs, s)[i], s.field) >= Key(SortScores(xs, s)[j], s.field)
  {
    var r := SortScores(xs, s);
    assert SortedBy(r, s);
  }

  // ---------------------------------------------------------------------------
  // Average and best

  function TotalSum(xs: seq<MockScore>): int {
    if xs == [] then 0 else xs[0].totalScore + TotalSum(xs[1..])
  }

  /** `Math.round(sum / length)`, 0 when there are no scores. */
  function AverageTotal(xs: seq<MockScore>): (r: int)
    ensures xs == [] ==> r == 0
    ensures xs != [] ==> 2 * |xs| * r <= 2 * TotalSum(xs) + |xs| < 2 * |xs| * r + 2 * |xs|
  {
    if xs == [] then 0 else RoundDiv(TotalSum(xs), |xs|)
  }

  /** `Math.max(...totals)`, 0 when there are no scores. */
  function HighestScore(xs: seq<MockScore>): (r: int)
    ensures xs == [] ==> r == 0
    ensures forall i :: 0 <= i < |xs| ==> xs[i].totalScore <= r
    ensures xs != [] ==> exists i :: 0 <= i < |xs| && xs[i].totalScore == r
  {
    if xs == [] then 0
    else if |xs| == 1 then xs[0].totalScore
    else
      var rest := HighestScore(xs[1..]);
      if xs[0].totalScore >= rest then xs[0].totalScore else rest
  }

  lemma {:induction false} SumAtMost(xs: seq<MockScore>, h: int)
    requires forall i :: 0 <= i < |xs| ==> xs[i].totalScore <= h
    ensures TotalSum(xs) <= |xs| * h
  {
    if xs != [] {
      SumAtMost(xs[1..], h);
      assert |xs| * h == h + (|xs| - 1) * h;
    }
  }

  /** The rounded average never exceeds the best score. */
  lemma AverageAtMostHighest(xs: seq<MockScore>)
    requires xs != []
    ensures AverageTotal(xs) <= HighestScore(xs)
  {
    var h := HighestScore(xs);
    SumAtMost(xs, h);
    assert |xs| * h == h * |xs|;
    RoundDivMonotone(TotalSum(xs), h * |xs|, |xs|);
    RoundDivExact(h, |xs|);
  }

  // ---------------------------------------------------------------------------
  // The component

  class MockScoreTracker {
    var scores: seq<MockScore>
    var sort: SortState
    var form: ScoreForm
    var isOpen: bool
    const store: RecordStore

    constructor (store: RecordStore)
      ensures scores == [] && sort == InitialSort() && form == EmptyForm(Indore) && !isOpen
      ensures this.store == store
    {
      scores := [];
      sort := InitialSort();
      form := EmptyForm(Indore);
      isOpen := false;
      this.store := store;
    }

    method Mount() returns (failure: Option<StoreError>)
      modifies this
      ensures store.GetMockScores().Success? ==> scores == store.GetMockScores().value && failure == None
      ensures store.GetMockScores().Failure? ==> scores == old(scores) && failure == Some(store.GetMockScores().error)
      ensures sort == old(sort) && form == old(form) && isOpen == old(isOpen)
    {
      var read := store.GetMockScores();
      match read
      case Success(v) =>
        scores := v;
        failure := None;
      case Failure(e) =>
        failure := Some(e);
    }

    method OpenDialog()
      modifies this
      ensures isOpen && scores == old(scores) && sort == old(sort) && form == old(form)
    {
      isOpen := true;
    }

    method EditForm(f: ScoreForm)
      modifies this
      ensures form == f && scores == old(scores) && sort == old(sort) && isOpen == old(isOpen)
    {
      form := f;
    }

    method HandleSortClick(field: SortField)
      modifies this
      ensures sort == HandleSort(old(sort), field)
      ensures scores == old(scores) && form == old(form) && isOpen == old(isOpen)
    {
      sort := HandleSort(sort, field);
    }

    /**
     * `handleSubmit`: the new score goes first, the list is written back, and the
     * form is cleared except for the exam type. The date field is required by the form.
     */
    method Submit(id: string)
      requires form.date.Some?
      modifies this, store
      ensures scores == [NewScore(old(form), id, old(form).date.value)] + old(scores)
      ensures |scores| == |old(scores)| + 1 && scores[1..] == old(scores)
      ensures form == EmptyForm(old(form).examType) && !isOpen && sort == old(sort)
      ensures store.entries == old(store.entries)[MockScoresKey := Write(ListToJson(scores, MockScoreToJson))]
      ensures store.GetMockScores() == Success(scores)
    {
      var m := NewScore(form, id, form.date.value);
      scores := [m] + scores;
      store.SetMockScores(scores);
      form := EmptyForm(form.examType);
      isOpen := false;
    }

    /** `handleDelete`. */
    method Delete(id: string)
      modifies this, store
      ensures scores == WithoutId(old(scores), id)
      ensures sort == old(sort) && form == old(form) && isOpen == old(isOpen)
      ensures store.entries == old(store.entries)[MockScoresKey := Write(ListToJson(scores, MockScoreToJson))]
      ensures store.GetMockScores() == Success(scores)
    {
      scores := WithoutId(scores, id);
      store.SetMockScores(scores);
    }

    function Sorted(): seq<MockScore>
      reads this
    {
      SortScores(scores, sort)
    }

    function Average(): int
      reads this
    {
      AverageTotal(scores)
    }

    function Highest(): int
      reads this
    {
      HighestScore(scores)
    }
  }
}
