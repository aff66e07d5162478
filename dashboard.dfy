/**
 * The dashboard's figures: the syllabus percentage, the number of mocks, the
 * latest mock total and the greeting, each computed from what the store holds
 * when the page mounts.
 */
module Dashboard {
  import opened Wrappers
  import opened Text
  import opened Records
  import opened Storage
  import opened Progress
  import opened Auth

  /**
   * `Math.round(completed / progress.length * 100)`. An empty list has no
   * percentage (the division gives NaN).
   */
  function ProgressPercent(progress: seq<ProgressItem>): (r: Option<int>)
    ensures r.None? <==> progress == []
    ensures r.Some? ==> 0 <= r.value <= 100 && r.value == Percent(CompletedCount(progress), |progress|)
    ensures r.Some? ==> (r.value == 100 <== forall i :: 0 <= i < |progress| ==> progress[i].completed)
    ensures r.Some? ==> (r.value == 0 <== forall i :: 0 <= i < |progress| ==> !progress[i].completed)
  {
    if progress == [] then None
    else
      NoneCompleted(progress);
      Some(Percent(CompletedCount(progress), |progress|))
  }

  /** A list with no completed item counts zero. */
  lemma {:induction false} NoneCompleted(items: seq<ProgressItem>)
    ensures (forall i :: 0 <= i < |items| ==> !items[i].completed) ==> CompletedCount(items) == 0
  {
    if items != [] {
      NoneCompleted(items[1..]);
      assert forall i :: 0 <= i < |items[1..]| ==> items[1..][i] == items[i + 1];
    }
  }

  /** `mocks[0].totalScore` when there is a score; it stays null otherwise. */
  function LatestScore(scores: seq<MockScore>): (r: Option<int>)
    ensures r.Some? <==> scores != []
    ensures r.Some? ==> r.value == scores[0].totalScore
  {
    if scores == [] then None else Some(scores[0].totalScore)
  }

  /** Scores are added at the front, so the latest score is the one added last. */
  lemma LatestIsNewest(scores: seq<MockScore>, added: MockScore)
    ensures LatestScore([added] + scores) == Some(added.totalScore)
  {
  }

  /** `user?.name?.split(' ')[0] || 'Aspirant'`. */
  function Greeting(user: Option<User>): (r: string)
    ensures r != "" && ' ' !in r
    ensures user.Some? && FirstToken(user.value.name) != "" ==> r == FirstToken(user.value.name)
    ensures user.None? || FirstToken(user.value.name) == "" ==> r == "Aspirant"
  {
    if user.None? then "Aspirant"
    else
      var first := FirstToken(user.value.name);
      if first == "" then "Aspirant" else first
  }

  /** A user who entered under a name is greeted by the first word of that name, as typed. */
  lemma GreetingOfEntered(name: string, now: int)
    requires EnteredUser(name, now).Some?
    ensures Greeting(EnteredUser(name, now)) == FirstToken(Trim(name))
    ensures StartsWith(Trim(name), Greeting(EnteredUser(name, now)))
  {
    var n := Trim(name);
    assert n[0] != ' ' by {
      assert !IsSpace(n[0]);
    }
  }

  /** The three figures the mount effect sets. */
  datatype Figures = Figures(progressPercent: Option<int>, mockCount: nat, latestScore: Option<int>)

  /** The mount effect over the stored texts; a stored list that cannot be read makes the page fail. */
  function Load(entries: map<string, string>): (r: Result<Figures, StoreError>)
    ensures ReadProgress(entries).Failure? ==> r == Failure(ReadProgress(entries).error)
    ensures ReadProgress(entries).Success? && ReadMockScores(entries).Failure? ==> r == Failure(ReadMockScores(entries).error)
    ensures r.Success? <==> ReadProgress(entries).Success? && ReadMockScores(entries).Success?
    ensures r.Success? ==>
      r.value.progressPercent == ProgressPercent(ReadProgress(entries).value)
      && r.value.mockCount == |ReadMockScores(entries).value|
      && r.value.latestScore == LatestScore(ReadMockScores(entries).value)
  {
    var progress :- ReadProgress(entries);
    var mocks :- ReadMockScores(entries);
    Success(Figures(ProgressPercent(progress), |mocks|, LatestScore(mocks)))
  }

  /** Before anything is stored, the dashboard shows 0%, no mocks and no latest score. */
  lemma FreshDashboard(entries: map<string, string>)
    requires ProgressKey !in entries && MockScoresKey !in entries
    ensures Load(entries) == Success(Figures(Some(0), 0, None))
  {
    ReadDefaults(entries);
    SeedNotCompleted();
  }
}
