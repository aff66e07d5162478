/**
 * Today's goals. The store keeps every goal ever entered; the card shows and
 * edits only the goals created today, and each save replaces today's goals
 * while leaving every other day's goals as they were.
 */
module DailyGoals {
  import opened Wrappers
  import opened Text
  import opened Lists
  import opened Records
  import opened Storage

  /** The calendar day of an instant, counted in whole days since the epoch. */
  function DayOf(ms: int): (d: int)
    ensures DayMs * d <= ms < DayMs * d + DayMs
  {
    ms / DayMs
  }

  /** The goals created on `day`, in stored order. */
  function OnDay(goals: seq<DailyGoal>, day: int): (r: seq<DailyGoal>)
    ensures IsSubsequence(r, goals)
    ensures forall g :: g in r <==> g in goals && DayOf(g.createdAt) == day
  {
    if goals == [] then []
    else if DayOf(goals[0].createdAt) == day then [goals[0]] + OnDay(goals[1..], day)
    else OnDay(goals[1..], day)
  }

  /** The goals created on any other day, in stored order. */
  function OffDay(goals: seq<DailyGoal>, day: int): (r: seq<DailyGoal>)
    ensures IsSubsequence(r, goals)
    ensures forall g :: g in r <==> g in goals && DayOf(g.createdAt) != day
  {
    if goals == [] then []
    else if DayOf(goals[0].createdAt) != day then [goals[0]] + OffDay(goals[1..], day)
    else OffDay(goals[1..], day)
  }

  predicate AllOnDay(goals: seq<DailyGoal>, day: int) {
    forall i :: 0 <= i < |goals| ==> DayOf(goals[i].createdAt) == day
  }

  /** A day's goals and the others split the stored list: no goal is lost or counted twice. */
  lemma {:induction false} DaySplit(goals: seq<DailyGoal>, day: int)
    ensures |OnDay(goals, day)| + |OffDay(goals, day)| == |goals|
    ensures multiset(OnDay(goals, day)) + multiset(OffDay(goals, day)) == multiset(goals)
  {
    if goals != [] {
      DaySplit(goals[1..], day);
      assert goals == [goals[0]] + goals[1..];
    }
  }

  lemma {:induction false} OnDayAppend(a: seq<DailyGoal>, b: seq<DailyGoal>, day: int)
    ensures OnDay(a + b, day) == OnDay(a, day) + OnDay(b, day)
  {
    if a == [] {
      assert a + b == b;
    } else {
      assert (a + b)[0] == a[0] && (a + b)[1..] == a[1..] + b;
      OnDayAppend(a[1..], b, day);
      if DayOf(a[0].createdAt) == day {
        assert OnDay(a + b, day) == [a[0]] + OnDay(a[1..] + b, day);
      } else {
        assert OnDay(a + b, day) == OnDay(a[1..] + b, day);
      }
    }
  }

  lemma {:induction false} OffDayAppend(a: seq<DailyGoal>, b: seq<DailyGoal>, day: int)
    ensures OffDay(a + b, day) == OffDay(a, day) + OffDay(b, day)
  {
    if a == [] {
      assert a + b == b;
    } else {
      assert (a + b)[0] == a[0] && (a + b)[1..] == a[1..] + b;
      OffDayAppend(a[1..], b, day);
      if DayOf(a[0].createdAt) != day {
        assert OffDay(a + b, day) == [a[0]] + OffDay(a[1..] + b, day);
      } else {
        assert OffDay(a + b, day) == OffDay(a[1..] + b, day);
      }
    }
  }

  lemma {:induction false} OnDayAll(goals: seq<DailyGoal>, day: int)
    requires AllOnDay(goals, day)
    ensures OnDay(goals, day) == goals && OffDay(goals, day) == []
  {
    if goals != [] {
      OnDayAll(goals[1..], day);
      assert [goals[0]] + goals[1..] == goals;
    }
  }

  lemma {:induction false} OffDayNone(goals: seq<DailyGoal>, day: int)
    ensures OnDay(OffDay(goals, day), day) == [] && OffDay(OffDay(goals, day), day) == OffDay(goals, day)
  {
    if goals != [] {
      OffDayNone(goals[1..], day);
      if DayOf(goals[0].createdAt) != day {
        assert ([goals[0]] + OffDay(goals[1..], day))[1..] == OffDay(goals[1..], day);
      }
    }
  }

  /** `saveGoals`: the other days' goals in stored order, then the new list for today. */
  function SaveAll(stored: seq<DailyGoal>, day: int, updated: seq<DailyGoal>): (r: seq<DailyGoal>)
    ensures |r| >= |updated| && r[|r| - |updated|..] == updated
    ensures forall g :: g in r <==> (g in stored && DayOf(g.createdAt) != day) || g in updated
  {
    OffDay(stored, day) + updated
  }

  /**
   * After a save of goals all made today, reading today's goals back gives exactly
   * the saved list, and the other days' goals are the ones stored before.
   */
  lemma SaveThenLoad(stored: seq<DailyGoal>, day: int, updated: seq<DailyGoal>)
    requires AllOnDay(updated, day)
    ensures OnDay(SaveAll(stored, day, updated), day) == updated
    ensures OffDay(SaveAll(stored, day, updated), day) == OffDay(stored, day)
  {
    OnDayAppend(OffDay(stored, day), updated, day);
    OffDayAppend(OffDay(stored, day), updated, day);
    OffDayNone(stored, day);
    OnDayAll(updated, day);
  }

  // ---------------------------------------------------------------------------
  // Editing today's list

  /** `addGoal`'s list: a whitespace-only text adds nothing; otherwise one open goal with the trimmed text goes last. */
  function AddGoal(goals: seq<DailyGoal>, text: string, id: string, now: int): (r: Option<seq<DailyGoal>>)
    ensures IsBlank(text) <==> r.None?
    ensures r.Some? ==> r.value == goals + [DailyGoal(id, Trim(text), false, now)]
    ensures r.Some? ==> Trim(r.value[|goals|].text) == r.value[|goals|].text != []
  {
    if Trim(text) == [] then None
    else
      TrimIdempotent(text);
      Some(goals + [DailyGoal(id, Trim(text), false, now)])
  }

  /** `toggleGoal`'s `map`. */
  function ToggleGoal(goals: seq<DailyGoal>, id: string): (r: seq<DailyGoal>)
    ensures |r| == |goals|
    ensures forall i :: 0 <= i < |r| ==>
      r[i].id == goals[i].id && r[i].text == goals[i].text && r[i].createdAt == goals[i].createdAt
      && r[i].completed == (if goals[i].id == id then !goals[i].completed else goals[i].completed)
  {
    if goals == [] then []
    else
      var g := goals[0];
      [if g.id == id then g.(completed := !g.completed) else g] + ToggleGoal(goals[1..], id)
  }

  lemma ToggleGoalTwice(goals: seq<DailyGoal>, id: string)
    ensures ToggleGoal(ToggleGoal(goals, id), id) == goals
  {
  }

  /** `deleteGoal`'s `filter`. */
  function WithoutGoal(goals: seq<DailyGoal>, id: string): (r: seq<DailyGoal>)
    ensures IsSubsequence(r, goals)
    ensures forall g :: g in r <==> g in goals && g.id != id
    ensures forall g :: multiset(r)[g] == if g.id != id then multiset(goals)[g] else 0
  {
    if goals == [] then []
    else
      assert goals == [goals[0]] + goals[1..];
      if goals[0].id != id then [goals[0]] + WithoutGoal(goals[1..], id)
      else WithoutGoal(goals[1..], id)
  }

  /** Toggling or deleting keeps the list on today. */
  lemma EditsStayOnDay(goals: seq<DailyGoal>, id: string, day: int)
    requires AllOnDay(goals, day)
    ensures AllOnDay(ToggleGoal(goals, id), day)
    ensures AllOnDay(WithoutGoal(goals, id), day)
  {
    var r := WithoutGoal(goals, id);
    forall i | 0 <= i < |r|
      ensures DayOf(r[i].createdAt) == day
    {
      assert r[i] in r;
    }
  }

  /** `goals.filter(g => g.completed).length`. */
  function CompletedGoals(goals: seq<DailyGoal>): (n: nat)
    ensures n <= |goals|
  {
    if goals == [] then 0 else (if goals[0].completed then 1 else 0) + CompletedGoals(goals[1..])
  }

  /** A goal just added is open, so it leaves the completed count as it was. */
  lemma {:induction false} AddKeepsCompleted(goals: seq<DailyGoal>, g: DailyGoal)
    requires !g.completed
    ensures CompletedGoals(goals + [g]) == CompletedGoals(goals)
  {
    if goals == [] {
      assert [] + [g] == [g];
    } else {
      assert (goals + [g])[1..] == goals[1..] + [g];
      AddKeepsCompleted(goals[1..], g);
    }
  }

  // ---------------------------------------------------------------------------
  // The component

  class DailyGoalsCard {
    var goals: seq<DailyGoal>
    var newGoal: string
    const store: RecordStore

    constructor (store: RecordStore)
      ensures goals == [] && newGoal == "" && this.store == store
    {
      goals := [];
      newGoal := "";
      this.store := store;
    }

    /** The mount effect, on day `today`: the stored goals created today. */
    method Mount(today: int) returns (failure: Option<StoreError>)
      modifies this
      ensures store.GetDailyGoals().Success? ==> goals == OnDay(store.GetDailyGoals().value, today) && failure == None
      ensures store.GetDailyGoals().Failure? ==> goals == old(goals) && failure == Some(store.GetDailyGoals().error)
      ensures newGoal == old(newGoal)
    {
      var read := store.GetDailyGoals();
      match read
      case Success(all) =>
        goals := OnDay(all, today);
        failure := None;
      case Failure(e) =>
        failure := Some(e);
    }

    method Type(text: string)
      modifies this
      ensures newGoal == text && goals == old(goals)
    {
      newGoal := text;
    }

    /** `saveGoals`: re-read the store, keep the other days, put `updated` in place of today's goals. */
    method SaveGoals(today: int, updated: seq<DailyGoal>) returns (failure: Option<StoreError>)
      modifies this, store
      ensures old(store.GetDailyGoals()).Success? ==>
        failure == None && goals == updated
        && store.entries == old(store.entries)[DailyGoalsKey := Write(ListToJson(SaveAll(old(store.GetDailyGoals()).value, today, updated), GoalToJson))]
        && store.GetDailyGoals() == Success(SaveAll(old(store.GetDailyGoals()).value, today, updated))
      ensures old(store.GetDailyGoals()).Failure? ==>
        failure == Some(old(store.GetDailyGoals()).error) && goals == old(goals) && store.entries == old(store.entries)
      ensures newGoal == old(newGoal)
    {
      var read := store.GetDailyGoals();
      match read
      case Success(all) =>
        store.SetDailyGoals(SaveAll(all, today, updated));
        goals := updated;
        failure := None;
      case Failure(e) =>
        failure := Some(e);
    }

    /** `addGoal` at instant `now`. */
    method Add(id: string, now: int) returns (failure: Option<StoreError>)
      modifies this, store
      ensures IsBlank(old(newGoal)) ==>
        failure == None && goals == old(goals) && newGoal == old(newGoal) && store.entries == old(store.entries)
      ensures !IsBlank(old(newGoal)) && old(store.GetDailyGoals()).Success? ==>
        failure == None && newGoal == "" && goals == old(goals) + [DailyGoal(id, Trim(old(newGoal)), false, now)]
        && AddGoal(old(goals), old(newGoal), id, now) == Some(goals)
      ensures !IsBlank(old(newGoal)) && old(store.GetDailyGoals()).Success? ==>
        store.entries == old(store.entries)[DailyGoalsKey := Write(ListToJson(SaveAll(old(store.GetDailyGoals()).value, DayOf(now), goals), GoalToJson))]
        && store.GetDailyGoals() == Success(SaveAll(old(store.GetDailyGoals()).value, DayOf(now), goals))
      ensures !IsBlank(old(newGoal)) && old(store.GetDailyGoals()).Failure? ==>
        failure == Some(old(store.GetDailyGoals()).error) && goals == old(goals) && newGoal == old(newGoal)
        && store.entries == old(store.entries)
    {
      if Trim(newGoal) == [] {
        failure := None;
        return;
      }
      failure := SaveGoals(DayOf(now), goals + [DailyGoal(id, Trim(newGoal), false, now)]);
      if failure.None? {
        newGoal := "";
      }
    }

    /** `toggleGoal` on day `today`. */
    method Toggle(today: int, id: string) returns (failure: Option<StoreError>)
      modifies this, store
      ensures old(store.GetDailyGoals()).Success? ==>
        failure == None && goals == ToggleGoal(old(goals), id)
        && store.entries == old(store.entries)[DailyGoalsKey := Write(ListToJson(SaveAll(old(store.GetDailyGoals()).value, today, goals), GoalToJson))]
        && store.GetDailyGoals() == Success(SaveAll(old(store.GetDailyGoals()).value, today, goals))
      ensures old(store.GetDailyGoals()).Failure? ==> failure.Some? && goals == old(goals) && store.entries == old(store.entries)
      ensures newGoal == old(newGoal)
    {
      failure := SaveGoals(today, ToggleGoal(goals, id));
    }

    /** `deleteGoal` on day `today`. */
    method Delete(today: int, id: string) returns (failure: Option<StoreError>)
      modifies this, store
      ensures old(store.GetDailyGoals()).Success? ==>
        failure == None && goals == WithoutGoal(old(goals), id)
        && store.entries == old(store.entries)[DailyGoalsKey := Write(ListToJson(SaveAll(old(store.GetDailyGoals()).value, today, goals), GoalToJson))]
        && store.GetDailyGoals() == Success(SaveAll(old(store.GetDailyGoals()).value, today, goals))
      ensures old(store.GetDailyGoals()).Failure? ==> failure.Some? && goals == old(goals) && store.entries == old(store.entries)
      ensures newGoal == old(newGoal)
    {
      failure := SaveGoals(today, WithoutGoal(goals, id));
    }

    function Completed(): nat
      reads this
    {
      CompletedGoals(goals)
    }
  }
}
