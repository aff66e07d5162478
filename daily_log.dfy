/**
 * The study journal: one entry per calendar day, edited in place, with day-by-day
 * navigation that never goes past today. Days are day numbers; the application
 * keys entries by their `yyyy-MM-dd` text, which orders and compares the same way.
 */
module DailyLogs {
  import opened Wrappers
  import opened Text
  import opened Records
  import opened Storage

  /** `logs.findIndex(l => l.date === day)`, with `None` for -1. */
  function FindLogIndex(logs: seq<DailyLog>, day: int): (r: Option<nat>)
    ensures r.Some? ==> r.value < |logs| && logs[r.value].date == day
    ensures r.Some? ==> forall j :: 0 <= j < r.value ==> logs[j].date != day
    ensures r.None? ==> forall j :: 0 <= j < |logs| ==> logs[j].date != day
  {
    if logs == [] then None
    else if logs[0].date == day then Some(0)
    else
      var rest := FindLogIndex(logs[1..], day);
      if rest.Some? then Some(rest.value + 1) else None
  }

  /** `handleSave`'s list: overwrite the day's entry, or append a new one. */
  function Upsert(logs: seq<DailyLog>, day: int, content: string, hours: int, minutes: int, id: string): (r: seq<DailyLog>)
    ensures FindLogIndex(logs, day).Some? ==>
      var i := FindLogIndex(logs, day).value;
      |r| == |logs| && r[i] == logs[i].(content := content, studyHours := hours, studyMinutes := minutes)
      && forall j :: 0 <= j < |logs| && j != i ==> r[j] == logs[j]
    ensures FindLogIndex(logs, day).None? ==> r == logs + [DailyLog(id, content, day, hours, minutes)]
  {
    match FindLogIndex(logs, day)
    case Some(i) => logs[i := logs[i].(content := content, studyHours := hours, studyMinutes := minutes)]
    case None => logs + [DailyLog(id, content, day, hours, minutes)]
  }

  /** At most one entry per day. */
  predicate DatesUnique(logs: seq<DailyLog>) {
    forall i, j :: 0 <= i < j < |logs| ==> logs[i].date != logs[j].date
  }

  /** Saving keeps at most one entry per day, and the saved day then has exactly one entry. */
  lemma UpsertUnique(logs: seq<DailyLog>, day: int, content: string, hours: int, minutes: int, id: string)
    requires DatesUnique(logs)
    ensures DatesUnique(Upsert(logs, day, content, hours, minutes, id))
    ensures var r := Upsert(logs, day, content, hours, minutes, id);
      exists i :: 0 <= i < |r| && r[i].date == day && forall j :: 0 <= j < |r| && j != i ==> r[j].date != day
  {
    var r := Upsert(logs, day, content, hours, minutes, id);
    var found := FindLogIndex(logs, day);
    if found.Some? {
      var i := found.value;
      assert forall j :: 0 <= j < |r| ==> r[j].date == logs[j].date;
      assert r[i].date == day;
    } else {
      assert r[|logs|].date == day;
      assert forall j :: 0 <= j < |logs| ==> r[j] == logs[j];
    }
  }

  /** What the card shows for a day: the first entry's text and times, or an empty text and zeros. */
  datatype Entry = Entry(content: string, hoursText: string, minutesText: string)

  /** The load effect: `existingLog?.content || ''` and `existingLog?.studyHours?.toString() || '0'`. */
  function LoadFor(logs: seq<DailyLog>, day: int): (e: Entry)
    ensures FindLogIndex(logs, day).None? ==> e == Entry("", "0", "0")
    ensures FindLogIndex(logs, day).Some? ==>
      var l := logs[FindLogIndex(logs, day).value];
      e.content == l.content && e.hoursText == IntToDecimal(l.studyHours) && e.minutesText == IntToDecimal(l.studyMinutes)
    ensures FindLogIndex(logs, day).Some? ==>
      var l := logs[FindLogIndex(logs, day).value];
      ParseIntOrZero(e.hoursText) == l.studyHours && ParseIntOrZero(e.minutesText) == l.studyMinutes
  {
    match FindLogIndex(logs, day)
    case None => Entry("", "0", "0")
    case Some(i) =>
      IntRoundTrip(logs[i].studyHours);
      IntRoundTrip(logs[i].studyMinutes);
      Entry(logs[i].content, IntToDecimal(logs[i].studyHours), IntToDecimal(logs[i].studyMinutes))
  }

  /** Saving a day and loading it back shows what was saved. */
  lemma SaveThenLoad(logs: seq<DailyLog>, day: int, content: string, hours: int, minutes: int, id: string)
    ensures LoadFor(Upsert(logs, day, content, hours, minutes, id), day) == Entry(content, IntToDecimal(hours), IntToDecimal(minutes))
  {
    var r := Upsert(logs, day, content, hours, minutes, id);
    var found := FindLogIndex(logs, day);
    if found.Some? {
      var i := found.value;
      assert forall j :: 0 <= j < |r| ==> r[j].date == logs[j].date;
      assert FindLogIndex(r, day) == Some(i) by {
        IndexSameDates(logs, r, day);
      }
    } else {
      assert forall j :: 0 <= j < |logs| ==> r[j].date == logs[j].date;
      AppendedIndex(logs, DailyLog(id, content, day, hours, minutes));
    }
  }

  lemma {:induction false} IndexSameDates(a: seq<DailyLog>, b: seq<DailyLog>, day: int)
    requires |a| == |b| && forall j :: 0 <= j < |a| ==> a[j].date == b[j].date
    ensures FindLogIndex(a, day) == FindLogIndex(b, day)
  {
    if a != [] {
      IndexSameDates(a[1..], b[1..], day);
    }
  }

  lemma {:induction false} AppendedIndex(logs: seq<DailyLog>, l: DailyLog)
    requires FindLogIndex(logs, l.date).None?
    ensures FindLogIndex(logs + [l], l.date) == Some(|logs|)
  {
    if logs == [] {
      assert logs + [l] == [l];
    } else {
      assert (logs + [l])[1..] == logs[1..] + [l];
      AppendedIndex(logs[1..], l);
    }
  }

  /** Saving the same day twice: one entry for the day, holding the later text. */
  lemma SaveTwice(logs: seq<DailyLog>, day: int, c1: string, c2: string, h1: int, h2: int, m1: int, m2: int, id1: string, id2: string)
    requires DatesUnique(logs)
    ensures var r := Upsert(Upsert(logs, day, c1, h1, m1, id1), day, c2, h2, m2, id2);
      DatesUnique(r) && LoadFor(r, day) == Entry(c2, IntToDecimal(h2), IntToDecimal(m2))
  {
    UpsertUnique(logs, day, c1, h1, m1, id1);
    var r1 := Upsert(logs, day, c1, h1, m1, id1);
    UpsertUnique(r1, day, c2, h2, m2, id2);
    SaveThenLoad(r1, day, c2, h2, m2, id2);
  }

  // ---------------------------------------------------------------------------
  // The component

  class DailyLogCard {
    var logs: seq<DailyLog>
    var currentDay: int
    var content: string
    var hoursText: string
    var minutesText: string
    var isSaved: bool
    const store: RecordStore

    /** The first render, on day `today`, before the load effect. */
    constructor (store: RecordStore, today: int)
      ensures logs == [] && currentDay == today && content == "" && hoursText == "0" && minutesText == "0" && isSaved
      ensures this.store == store
    {
      logs := [];
      currentDay := today;
      content := "";
      hoursText := "0";
      minutesText := "0";
      isSaved := true;
      this.store := store;
    }

    /** The effect that runs whenever the viewed day changes: reload every entry and show this day's. */
    method Load() returns (failure: Option<StoreError>)
      modifies this
      ensures store.GetDailyLogs().Success? ==>
        failure == None && logs == store.GetDailyLogs().value && isSaved
        && Entry(content, hoursText, minutesText) == LoadFor(logs, currentDay)
      ensures store.GetDailyLogs().Failure? ==>
        failure == Some(store.GetDailyLogs().error) && logs == old(logs) && content == old(content)
        && hoursText == old(hoursText) && minutesText == old(minutesText) && isSaved == old(isSaved)
      ensures currentDay == old(currentDay)
    {
      var read := store.GetDailyLogs();
      match read
      case Success(all) =>
        logs := all;
        var e := LoadFor(all, currentDay);
        content := e.content;
        hoursText := e.hoursText;
        minutesText := e.minutesText;
        isSaved := true;
        failure := None;
      case Failure(e) =>
        failure := Some(e);
    }

    method EditContent(text: string)
      modifies this
      ensures content == text && !isSaved
      ensures logs == old(logs) && currentDay == old(currentDay) && hoursText == old(hoursText) && minutesText == old(minutesText)
    {
      content := text;
      isSaved := false;
    }

    method EditHours(text: string)
      modifies this
      ensures hoursText == text && !isSaved
      ensures logs == old(logs) && currentDay == old(currentDay) && content == old(content) && minutesText == old(minutesText)
    {
      hoursText := text;
      isSaved := false;
    }

    method EditMinutes(text: string)
      modifies this
      ensures minutesText == text && !isSaved
      ensures logs == old(logs) && currentDay == old(currentDay) && content == old(content) && hoursText == old(hoursText)
    {
      minutesText := text;
      isSaved := false;
    }

    /** `handleSave`, with `id` for a new entry's `Date.now()` id. */
    method Save(id: string)
      modifies this, store
      ensures logs == Upsert(old(logs), currentDay, content, ParseIntOrZero(hoursText), ParseIntOrZero(minutesText), id)
      ensures isSaved
      ensures currentDay == old(currentDay) && content == old(content) && hoursText == old(hoursText) && minutesText == old(minutesText)
      ensures store.entries == old(store.entries)[DailyLogsKey := Write(ListToJson(logs, LogToJson))]
      ensures store.GetDailyLogs() == Success(logs)
    {
      logs := Upsert(logs, currentDay, content, ParseIntOrZero(hoursText), ParseIntOrZero(minutesText), id);
      store.SetDailyLogs(logs);
      isSaved := true;
    }

    /** The save button is enabled only while there are unsaved edits. */
    predicate SaveEnabled()
      reads this
    {
      !isSaved
    }

    /** `goToPreviousDay`, followed by the load effect. */
    method PreviousDay() returns (failure: Option<StoreError>)
      modifies this
      ensures currentDay == old(currentDay) - 1
      ensures store.GetDailyLogs().Success? ==>
        failure == None && logs == store.GetDailyLogs().value && isSaved
        && Entry(content, hoursText, minutesText) == LoadFor(logs, currentDay)
      ensures store.GetDailyLogs().Failure? ==>
        failure == Some(store.GetDailyLogs().error) && logs == old(logs) && content == old(content)
        && hoursText == old(hoursText) && minutesText == old(minutesText) && isSaved == old(isSaved)
    {
      currentDay := currentDay - 1;
      failure := Load();
    }

    /** `goToNextDay`: nothing happens on today; otherwise one day forward and the load effect. */
    method NextDay(today: int) returns (failure: Option<StoreError>)
      modifies this
      ensures old(currentDay) == today ==>
        currentDay == today && failure == None && logs == old(logs) && content == old(content)
        && hoursText == old(hoursText) && minutesText == old(minutesText) && isSaved == old(isSaved)
      ensures old(currentDay) != today ==> currentDay == old(currentDay) + 1
      ensures old(currentDay) != today && store.GetDailyLogs().Success? ==>
        failure == None && logs == store.GetDailyLogs().value && isSaved
        && Entry(content, hoursText, minutesText) == LoadFor(logs, currentDay)
      ensures old(currentDay) != today && store.GetDailyLogs().Failure? ==>
        failure == Some(store.GetDailyLogs().error) && logs == old(logs) && content == old(content)
        && hoursText == old(hoursText) && minutesText == old(minutesText) && isSaved == old(isSaved)
      ensures old(currentDay) <= today ==> currentDay <= today
    {
      if currentDay == today {
        failure := None;
        return;
      }
      currentDay := currentDay + 1;
      failure := Load();
    }
  }
}
