# og-ipmat-hub, modelled in Dafny

og-ipmat-hub is a single-page study companion for the IPMAT entrance exam. Every
record it keeps lives in the browser's `localStorage` under an `ipmat_` key, as
JSON text. This project models its core:

- the **storage layer**: typed getters and setters over the key/value store, the
  seeded 50-topic syllabus, and the exam countdown;
- the **session**: entering a name, restoring it on load, leaving;
- the **progress tracker**: ticking off syllabus topics, sorting them into units,
  and the per-section completion percentages;
- the **mock-score tracker**: entering a score sheet, deleting it, the clickable
  sort, and the average and best totals;
- the **daily goals card**, which keeps only today's goals;
- the **daily study log**, one entry per day, plus day navigation;
- the **vocabulary hub**: built-in and user word lists, the search filter, adding
  and deleting words, and the dictionary auto-fill;
- the **formula vault** search filter and its rule counts;
- the **pomodoro timer** and the **formula flashcards**;
- the **dashboard** figures and greeting.

Module by module:

- `Storage` holds a `RecordStore` class whose `entries` map models `localStorage`.
  Each React component that keeps state becomes a class whose fields are its
  `useState` variables (`ProgressTracker`, `MockScoreTracker`, `DailyGoalsCard`,
  `DailyLogCard`, `VocabHub`, `PomodoroTimer`, `FlashcardDeck`, `AuthProvider`).
  Its handlers are methods with `modifies` clauses; the component's `const store`
  field stands for the shared storage.
- The pure parts are functions: classification, filters, sorting, the score sum
  and percentages. Each has lemmas for what the application relies on: round
  trips, idempotence, permutation and stability, and "nothing else changes".
- `JSON.stringify` and `JSON.parse` are modelled by a `Json` value tree with a
  canonical text encoding (`Json.Serialize`/`Json.Parse`) and a proved round trip.
- `Records` maps every entity to and from `Json`, with a round trip per entity.
- `Text` models the string built-ins the source uses: `trim`, `toLowerCase`,
  `startsWith`, `includes`, `split(' ')[0]`, `parseInt` and `toString`.

The storage layer is described as falling back to defaults on bad data, but
the getters in `src/lib/storage.ts` do not catch a failed `JSON.parse`: a stored
text that does not parse makes them throw. The model follows the code here.
Each getter returns a `Result`; its `Unparsable` failure is that exception, and
the component methods pass it back to the caller as `Some(StoreError)`. The
getters also fail with `Mistyped` on text that parses but does not decode as the
expected record or list. The code has no such check: it hands `JSON.parse`'s
value on as it is (see "## Left out").

## Model

| member | source | states |
|---|---|---|
| Storage.KeysDistinct | src/lib/storage.ts:61-122 | the six storage keys are pairwise different and all start with `ipmat_` |
| Storage.Stored | src/lib/storage.ts:62-63 | a key counts as stored exactly when it is present with non-empty text (the truthiness test on `getItem`) |
| Storage.Write | src/lib/storage.ts:66-122 | the text a setter stores is never empty, so a written key always counts as stored |
| Storage.ReadJson | src/lib/storage.ts:61-64 | nothing stored reads as absent; text that does not parse is a failure naming the key |
| Storage.ReadList | src/lib/storage.ts:75-118 | a list key with nothing stored reads as the getter's default |
| Storage.ReadWritten | src/lib/storage.ts:66-68 | reading a key just written gives back the written JSON value |
| Storage.ReadListWritten | src/lib/storage.ts:80-122 | a list written with a codec that round-trips reads back as the same list |
| Storage.ReadUser | src/lib/storage.ts:61-64 | no stored user reads as `null` |
| Storage.ReadDefaults | src/lib/storage.ts:61-118 | on an empty store every getter returns its default: no user, the syllabus seed, empty lists |
| Storage.ReadListOther | src/lib/storage.ts:80-122 | writing one key leaves what every other list key reads unchanged |
| Storage.ReadUserOther | src/lib/storage.ts:66-72 | writing a key other than the user's leaves the user read unchanged |
| Storage.RecordStore.constructor | src/lib/storage.ts:61-122 | the store starts with the given entries |
| Storage.RecordStore.SetUser | src/lib/storage.ts:66-68 | only the user key changes, to the user's JSON, and `getUser` then returns that user |
| Storage.RecordStore.ClearUser | src/lib/storage.ts:70-72 | only the user key is removed, and `getUser` then returns `null` |
| Storage.RecordStore.SetProgress | src/lib/storage.ts:80-82 | only the progress key changes, and `getProgress` then returns the items written |
| Storage.RecordStore.SetMockScores | src/lib/storage.ts:90-92 | only the mock-score key changes, and `getMockScores` then returns the scores written |
| Storage.RecordStore.SetDailyGoals | src/lib/storage.ts:100-102 | only the goals key changes, and `getDailyGoals` then returns the goals written |
| Storage.RecordStore.SetDailyLogs | src/lib/storage.ts:110-112 | only the log key changes, and `getDailyLogs` then returns the logs written |
| Storage.RecordStore.SetVocab | src/lib/storage.ts:120-122 | only the vocabulary key changes, and `getVocab` then returns the words written |
| Storage.QuantTopics | src/lib/storage.ts:126-170 | the quants section of the seed lists 37 topics |
| Storage.Numbered | src/lib/storage.ts:125-181 | seed item i of a section has id prefix + (i+1), the section's topic i, not completed, and the section's category |
| Storage.SeedItemOf | src/lib/storage.ts:125-181 | in the 50-item seed, item i has the topic, id, category and done-mark the layout gives it |
| Storage.SeedIdsDistinctOf | src/lib/storage.ts:125-181 | no two of the 50 seed items share an id |
| Storage.SeedCountOf | src/lib/storage.ts:125-181 | the seed has 42 quants items (quants plus LRDI) and 8 verbal items |
| Storage.SeedNotCompleted | src/lib/storage.ts:125-181 | the seed is not empty and no item in it is completed |
| Storage.DefaultProgressShape | src/lib/storage.ts:125-181 | the seed has 50 items with distinct ids, none completed: 42 quants and 8 verbal |
| Storage.DaysUntil | src/lib/storage.ts:184-190 | the whole days left to the exam, rounded up, never below zero and zero once the exam has begun |
| Storage.Countdown | src/lib/storage.ts:202-217 | at or after the exam instant everything is zero; before it, hours, minutes and seconds are in range and days·d + hours·h + minutes·m + seconds·s + the leftover milliseconds equals the time left |
| Storage.DaysMatchCountdown | src/lib/storage.ts:184-217 | the day count is the countdown's days, plus one unless the time left is a whole number of days |
| Json.ParseSerialize | src/lib/storage.ts:63-67 | parsing the text a value serialises to gives the value back |
| Json.ValueRoundTrip | src/lib/storage.ts:63-67 | a serialised value is self-delimiting: parsing it followed by any text gives the value and leaves that text |
| Records.UserRoundTrip | src/lib/storage.ts:61-68 | a user decodes from its own JSON |
| Records.ProgressRoundTrip | src/lib/storage.ts:75-82 | a syllabus item decodes from its own JSON |
| Records.BreakdownRoundTrip | src/lib/storage.ts:18-24 | a score breakdown, including its absent optional sections, decodes from its own JSON |
| Records.MockScoreRoundTrip | src/lib/storage.ts:85-92 | a mock score decodes from its own JSON |
| Records.GoalRoundTrip | src/lib/storage.ts:95-102 | a daily goal decodes from its own JSON |
| Records.LogRoundTrip | src/lib/storage.ts:105-112 | a daily log decodes from its own JSON |
| Records.VocabRoundTrip | src/lib/storage.ts:115-122 | a user's word decodes from its own JSON |
| Records.ExamRoundTrip | src/lib/storage.ts:16 | each exam type reads back from its name |
| Records.VocabCategoryRoundTrip | src/lib/storage.ts:56 | each vocabulary category reads back from its name |
| Records.ListRoundTrip | src/lib/storage.ts:80-122 | a list encoded element by element decodes back to the same list |
| Auth.EnteredUser | src/contexts/AuthContext.tsx:23-25 | a blank name gives no user; otherwise the user carries the trimmed, non-empty name and the creation time |
| Auth.EnterStoredName | src/contexts/AuthContext.tsx:23-25 | entering the stored (already trimmed) name again keeps the name |
| Auth.AuthProvider.constructor | src/contexts/AuthContext.tsx:14 | the session starts with no user |
| Auth.AuthProvider.Mount | src/contexts/AuthContext.tsx:16-21 | a stored user becomes the session's user; no stored user leaves it unchanged; unreadable storage is reported |
| Auth.AuthProvider.Enter | src/contexts/AuthContext.tsx:23-29 | succeeds exactly for a non-blank name; on success the user is set, authenticated and saved under the user key; on failure nothing changes |
| Auth.AuthProvider.Logout | src/contexts/AuthContext.tsx:31-37 | the user is cleared, not authenticated, and the user key removed |
| Progress.Toggle | src/components/tracker/ProgressTracker.tsx:17-23 | the items with the id flip their done-mark; every other item and the order stay |
| Progress.ToggleTwice | src/components/tracker/ProgressTracker.tsx:17-23 | toggling the same id twice restores the list |
| Progress.ToggleAbsent | src/components/tracker/ProgressTracker.tsx:17-23 | toggling an id no item carries changes nothing |
| Progress.UnitOf | src/components/tracker/ProgressTracker.tsx:26-40 | a topic falls under "other" exactly when it has no unit prefix and none of the keywords; without a prefix, an algebra keyword files it under algebra whatever else it names |
| Progress.PrefixWins | src/components/tracker/ProgressTracker.tsx:27-32 | a topic with a unit prefix is classified, and the prefix tests run in the source's order |
| Progress.GeometryByKeyword | src/components/tracker/ProgressTracker.tsx:33-37 | a geometry keyword classifies as geometry only after the prefixes and the algebra keywords fail |
| Progress.NoUnitPrefix | src/components/tracker/ProgressTracker.tsx:27-32 | a topic whose first letter begins no unit prefix has none |
| Progress.NoAlgebraKeyword | src/components/tracker/ProgressTracker.tsx:33-35 | a topic without the letters that start the algebra keywords has none of them |
| Progress.NoLaterKeyword | src/components/tracker/ProgressTracker.tsx:36-38 | a topic without the letters that start the geometry and modern-maths keywords has none of them |
| Progress.AlgebraExample | src/components/tracker/ProgressTracker.tsx:27 | "Algebra - Linear Equations" is algebra |
| Progress.TrigonometryExample | src/components/tracker/ProgressTracker.tsx:36-37 | "Trigonometry" is geometry by keyword |
| Progress.VerbalExample | src/components/tracker/ProgressTracker.tsx:39 | "Reading Comprehension" is "other" |
| Progress.AlgebraLabels | src/components/tracker/ProgressTracker.tsx:27 | every "Algebra - …" topic is algebra |
| Progress.ArithmeticLabels | src/components/tracker/ProgressTracker.tsx:28 | every "Arithmetic - …" topic is arithmetic |
| Progress.GeometryLabels | src/components/tracker/ProgressTracker.tsx:29 | every "Geometry - …" topic is geometry |
| Progress.LrdiLabels | src/components/tracker/ProgressTracker.tsx:30 | every "LRDI - …" topic is LRDI |
| Progress.ModernMathLabels | src/components/tracker/ProgressTracker.tsx:31 | every "Modern Math - …" topic is modern maths |
| Progress.NumberSystemLabels | src/components/tracker/ProgressTracker.tsx:32 | every "Number System - …" topic is number system |
| Progress.KeywordClassified | src/components/tracker/ProgressTracker.tsx:33-38 | a topic holding any unit keyword is not "other" |
| Progress.ArithmeticRunUnit | src/lib/storage.ts:126-170 | every arithmetic topic of the seed is classified as arithmetic |
| Progress.NumberSystemRunUnit | src/lib/storage.ts:126-170 | every number-system topic of the seed is classified as number system |
| Progress.LrdiTopicsUnit | src/lib/storage.ts:126-170 | every LRDI topic of the seed is classified as LRDI |
| Progress.AlgebraRunClassified | src/lib/storage.ts:126-170 | every algebra topic of the seed lands in some unit |
| Progress.GeometryRunClassified | src/lib/storage.ts:126-170 | every geometry topic of the seed lands in some unit |
| Progress.ModernMathRunClassified | src/lib/storage.ts:126-170 | every modern-maths topic of the seed lands in some unit |
| Progress.QuantTopicsClassified | src/lib/storage.ts:126-170 | no quants topic of the seed falls under "other" |
| Progress.SeedQuantsClassified | src/lib/storage.ts:125-181 | every quants item of the seed, LRDI included, shows under some unit filter |
| Progress.OfCategory | src/components/tracker/ProgressTracker.tsx:42-43 | the items of a section, in order: exactly the items with that category, each as often as in the list |
| Progress.OfUnit | src/components/tracker/ProgressTracker.tsx:45-48 | the items of a unit, in order: exactly the items classified under it, each as often as in the list |
| Progress.ShownQuantItems | src/components/tracker/ProgressTracker.tsx:45-48 | each quants item of the selected unit (any unit under "all") appears as often as in the list, and no other item appears |
| Progress.ShownQuantItemsSpec | src/components/tracker/ProgressTracker.tsx:45-48 | the list shown is the quants items of the selected unit, or all quants items under "all" |
| Progress.CompletedCount | src/components/tracker/ProgressTracker.tsx:50-53 | the count is at most the list length, and equal to it exactly when every item is done |
| Progress.CompletedSplit | src/components/tracker/ProgressTracker.tsx:50-53 | quants and verbal counts add up to the totals, both for items and for completed items |
| Progress.Percent | src/components/tracker/ProgressTracker.tsx:55-72 | the displayed `Math.round((c / t) * 100)`, 0 for an empty section; between 0 and 100; 100 when all are done |
| Progress.Summarize | src/components/tracker/ProgressTracker.tsx:50-57 | the figures agree with the counts and split by section; each percentage is `Percent` of its completed count over its item count, so it lies between 0 and 100 |
| Progress.ProgressTracker.constructor | src/components/tracker/ProgressTracker.tsx:10-11 | no items and the "all units" filter |
| Progress.ProgressTracker.Mount | src/components/tracker/ProgressTracker.tsx:13-15 | the items become what `getProgress` reads, or a read failure is reported |
| Progress.ProgressTracker.ToggleItem | src/components/tracker/ProgressTracker.tsx:17-23 | the items become the toggled list, which is saved and read back unchanged |
| Progress.ProgressTracker.SelectUnit | src/components/tracker/ProgressTracker.tsx:45-48 | only the unit filter changes |
| MockScores.NewScore | src/components/tracker/MockScoreTracker.tsx:80-110 | the sheet's sections are read with `parseInt(…) \|\| 0`; Indore keeps SA, MCQ and VA and the other exams QA, VA and LR; the total is their sum |
| MockScores.IndoreExample | src/components/tracker/MockScoreTracker.tsx:89-100 | an Indore sheet with SA 10, MCQ 8, VA 5 totals 23 |
| MockScores.RohtakExample | src/components/tracker/MockScoreTracker.tsx:89-100 | a Rohtak sheet with QA 12, VA 7, LR 6 totals 25 |
| MockScores.BlankSectionsCountZero | src/components/tracker/MockScoreTracker.tsx:83-87 | sections left blank or without digits count zero |
| MockScores.WithoutId | src/components/tracker/MockScoreTracker.tsx:131-139 | deleting keeps, in order, exactly the scores with another id, each as often as before |
| MockScores.WithoutAbsentId | src/components/tracker/MockScoreTracker.tsx:131-139 | deleting an id no score carries changes nothing |
| MockScores.HandleSort | src/components/tracker/MockScoreTracker.tsx:58-65 | the clicked field becomes the sort field; clicking the current one reverses the direction, clicking another starts descending |
| MockScores.SortClickTwice | src/components/tracker/MockScoreTracker.tsx:58-65 | clicking the current field twice restores the sort state |
| MockScores.Insert | src/components/tracker/MockScoreTracker.tsx:67-78 | inserting adds exactly the one score |
| MockScores.InsertSorted | src/components/tracker/MockScoreTracker.tsx:67-78 | inserting into a sorted list keeps it sorted |
| MockScores.SortScores | src/components/tracker/MockScoreTracker.tsx:67-78 | the sorted list is a permutation of the scores, ordered by the sort state |
| MockScores.InsertOfRank | src/components/tracker/MockScoreTracker.tsx:67-78 | inserting keeps the order among scores of equal key |
| MockScores.SortStable | src/components/tracker/MockScoreTracker.tsx:67-78 | the sort is stable: scores with equal keys keep their order |
| MockScores.SortDirectionMeaning | src/components/tracker/MockScoreTracker.tsx:67-78 | ascending sorts by non-decreasing key, descending by non-increasing key |
| MockScores.AverageTotal | src/components/tracker/MockScoreTracker.tsx:141-143 | 0 for no scores; otherwise the total sum divided by the count, rounded as `Math.round` does |
| MockScores.HighestScore | src/components/tracker/MockScoreTracker.tsx:145-147 | 0 for no scores; otherwise a total no score exceeds and some score reaches |
| MockScores.AverageAtMostHighest | src/components/tracker/MockScoreTracker.tsx:141-147 | the average never exceeds the best total |
| MockScores.MockScoreTracker.constructor | src/components/tracker/MockScoreTracker.tsx:37-52 | no scores, sorted by date descending, an empty Indore sheet, dialog closed |
| MockScores.MockScoreTracker.Mount | src/components/tracker/MockScoreTracker.tsx:54-56 | the scores become what `getMockScores` reads, or a read failure is reported |
| MockScores.MockScoreTracker.OpenDialog | src/components/tracker/MockScoreTracker.tsx:38 | only the dialog flag changes |
| MockScores.MockScoreTracker.EditForm | src/components/tracker/MockScoreTracker.tsx:43-52 | only the sheet changes |
| MockScores.MockScoreTracker.HandleSortClick | src/components/tracker/MockScoreTracker.tsx:58-65 | only the sort state changes, as `HandleSort` maps it |
| MockScores.MockScoreTracker.Submit | src/components/tracker/MockScoreTracker.tsx:80-129 | the new score goes first, the list is saved and reads back, the sheet resets keeping the exam type, and the dialog closes |
| MockScores.MockScoreTracker.Delete | src/components/tracker/MockScoreTracker.tsx:131-139 | the scores lose the id, and the list is saved and reads back |
| DailyGoals.OnDay | src/components/dashboard/DailyGoals.tsx:17-19 | keeps, in order, exactly the goals created on the day |
| DailyGoals.OffDay | src/components/dashboard/DailyGoals.tsx:27-29 | keeps, in order, exactly the goals created on other days |
| DailyGoals.DayOf | src/components/dashboard/DailyGoals.tsx:16-18 | the day of an instant is the whole day that contains it |
| DailyGoals.SaveAll | src/components/dashboard/DailyGoals.tsx:23-32 | the saved list ends with the new list, and holds exactly the stored goals of other days and the new goals |
| DailyGoals.DaySplit | src/components/dashboard/DailyGoals.tsx:13-29 | the day's goals and the other days' goals together are all the goals |
| DailyGoals.OnDayAppend | src/components/dashboard/DailyGoals.tsx:17-19 | the day filter distributes over concatenation |
| DailyGoals.OffDayAppend | src/components/dashboard/DailyGoals.tsx:27-29 | the other-days filter distributes over concatenation |
| DailyGoals.SaveThenLoad | src/components/dashboard/DailyGoals.tsx:23-32 | after a save, reloading today shows the list saved and every other day's goals are untouched |
| DailyGoals.AddGoal | src/components/dashboard/DailyGoals.tsx:34-47 | a blank text adds nothing; otherwise the trimmed text goes last as an open goal |
| DailyGoals.ToggleGoal | src/components/dashboard/DailyGoals.tsx:49-54 | the goal with the id flips its mark; everything else stays |
| DailyGoals.ToggleGoalTwice | src/components/dashboard/DailyGoals.tsx:49-54 | toggling twice restores the list |
| DailyGoals.WithoutGoal | src/components/dashboard/DailyGoals.tsx:56-59 | keeps, in order, exactly the goals with another id, each as often as before |
| DailyGoals.EditsStayOnDay | src/components/dashboard/DailyGoals.tsx:49-59 | toggling or deleting keeps a list of today's goals on today |
| DailyGoals.CompletedGoals | src/components/dashboard/DailyGoals.tsx:61 | the done count is at most the number of goals |
| DailyGoals.AddKeepsCompleted | src/components/dashboard/DailyGoals.tsx:34-47 | adding an open goal leaves the done count unchanged |
| DailyGoals.DailyGoalsCard.constructor | src/components/dashboard/DailyGoals.tsx:10-11 | no goals and an empty input |
| DailyGoals.DailyGoalsCard.Mount | src/components/dashboard/DailyGoals.tsx:13-21 | the goals become the stored goals created today, or a read failure is reported |
| DailyGoals.DailyGoalsCard.Type | src/components/dashboard/DailyGoals.tsx:11 | only the input text changes |
| DailyGoals.DailyGoalsCard.SaveGoals | src/components/dashboard/DailyGoals.tsx:23-32 | when the stored goals read, the goals key is overwritten with the JSON of the other days' goals followed by the new list, nothing else in the store changes, and the card shows the new list; when they do not read, nothing changes |
| DailyGoals.DailyGoalsCard.Add | src/components/dashboard/DailyGoals.tsx:34-47 | a blank input changes nothing; otherwise the list becomes `AddGoal`'s, the trimmed goal appended, the goals key alone is overwritten with the other days' goals followed by the appended list, and the input is cleared; when the stored goals do not read, the error is returned and the list, the input and the store stay as they were |
| DailyGoals.DailyGoalsCard.Toggle | src/components/dashboard/DailyGoals.tsx:49-54 | the toggled list is shown, and the goals key alone is overwritten with the other days' goals followed by it |
| DailyGoals.DailyGoalsCard.Delete | src/components/dashboard/DailyGoals.tsx:56-59 | the list without the id is shown, and the goals key alone is overwritten with the other days' goals followed by it |
| DailyLogs.FindLogIndex | src/components/dashboard/DailyLog.tsx:35 | the first index holding the day, or none when no log holds it |
| DailyLogs.Upsert | src/components/dashboard/DailyLog.tsx:39-54 | an existing day's log is updated in place, keeping its id; a new day is appended with the new id |
| DailyLogs.UpsertUnique | src/components/dashboard/DailyLog.tsx:39-54 | saving keeps at most one log per day |
| DailyLogs.LoadFor | src/components/dashboard/DailyLog.tsx:24-29 | with no log for the day the editor shows empty text and "0" hours and minutes; otherwise the log's text and its hours and minutes written out in decimal, which read back as the stored numbers |
| DailyLogs.SaveThenLoad | src/components/dashboard/DailyLog.tsx:20-54 | after saving a day, loading it shows the saved text, hours and minutes |
| DailyLogs.SaveTwice | src/components/dashboard/DailyLog.tsx:39-54 | saving a day twice is saving it once with the second values |
| DailyLogs.AppendedIndex | src/components/dashboard/DailyLog.tsx:45-54 | a log appended for a new day is found at the end |
| DailyLogs.IndexSameDates | src/components/dashboard/DailyLog.tsx:35 | the search depends only on the dates |
| DailyLogs.DailyLogCard.constructor | src/components/dashboard/DailyLog.tsx:13-18 | no logs, today, empty text, "0" hours and minutes, saved |
| DailyLogs.DailyLogCard.Load | src/components/dashboard/DailyLog.tsx:20-31 | the logs become what `getDailyLogs` reads and the editor shows the current day's entry, or a read failure is reported |
| DailyLogs.DailyLogCard.EditContent | src/components/dashboard/DailyLog.tsx:15 | only the text changes, and it is marked unsaved |
| DailyLogs.DailyLogCard.EditHours | src/components/dashboard/DailyLog.tsx:16 | only the hours text changes, and it is marked unsaved |
| DailyLogs.DailyLogCard.EditMinutes | src/components/dashboard/DailyLog.tsx:17 | only the minutes text changes, and it is marked unsaved |
| DailyLogs.DailyLogCard.Save | src/components/dashboard/DailyLog.tsx:33-64 | the day's log is upserted with `parseInt(…) \|\| 0` of hours and minutes, then saved, read back and marked saved |
| DailyLogs.DailyLogCard.PreviousDay | src/components/dashboard/DailyLog.tsx:66 | the day moves back one; when the logs read, the editor shows `LoadFor` of that day and is marked saved, otherwise the error is returned and the editor is unchanged |
| DailyLogs.DailyLogCard.NextDay | src/components/dashboard/DailyLog.tsx:67-71 | on today nothing changes; otherwise the day moves on one, never past today, and the editor loads that day as in `PreviousDay` |
| Vocab.BuiltInCards | src/components/vocab/VocabHub.tsx:36-81 | the built-in entries become cards in order, with no id, not added by the user |
| Vocab.OfVocabCategory | src/components/vocab/VocabHub.tsx:286-288 | keeps, in order, exactly the user's words of the category, each as often as before |
| Vocab.Flagged | src/components/vocab/VocabHub.tsx:286-288 | each user's word becomes a card marked as added by the user |
| Vocab.TabBuiltInPrefix | src/components/vocab/VocabHub.tsx:286-288 | a tab opens with its built-in cards, none of which can be deleted |
| Vocab.TabUserCards | src/components/vocab/VocabHub.tsx:286-288 | a user-added card is in a tab exactly when it is a user's word of the tab's category |
| Vocab.TabUserCardFrom | src/components/vocab/VocabHub.tsx:286-288 | a user-added card of a tab comes from a user's word of that category |
| Vocab.TabUserCardIn | src/components/vocab/VocabHub.tsx:286-288 | every user's word of the category appears in the tab |
| Vocab.BuiltInSide | src/components/vocab/VocabHub.tsx:286-288 | a card not added by the user is in a tab exactly when it is built in |
| Vocab.Search | src/components/vocab/VocabHub.tsx:92-96 | keeps, in order, exactly the cards whose lower-cased term or meaning contains the lower-cased query, each as often as in the tab |
| Vocab.SearchEmpty | src/components/vocab/VocabHub.tsx:92-96 | an empty query shows the whole tab |
| Vocab.SearchIgnoresCase | src/components/vocab/VocabHub.tsx:92-96 | searching for the lower-cased query gives the same cards |
| Vocab.WithoutWord | src/components/vocab/VocabHub.tsx:276-279 | keeps, in order, exactly the words with another id, each as often as before |
| Vocab.WithoutAbsentWord | src/components/vocab/VocabHub.tsx:276-279 | deleting an id no word carries changes nothing |
| Vocab.AddThenDelete | src/components/vocab/VocabHub.tsx:247-284 | deleting a word just added under a fresh id restores the list |
| Vocab.DeleteFromTab | src/components/vocab/VocabHub.tsx:131 | after a delete, a tab shows what it showed before minus the user's cards with that id |
| Vocab.FirstInMeans | src/components/vocab/VocabHub.tsx:194-207 | the first text found is empty exactly when all are, and otherwise the text at the first non-empty position |
| Vocab.FirstInEntriesFlat | src/components/vocab/VocabHub.tsx:197-207 | the nested search finds the first non-empty definition and example of the whole response, in reading order |
| Vocab.FindFirst | src/components/vocab/VocabHub.tsx:194-207 | the three nested loops, with their early exits, return the first definition and the first example |
| Vocab.CleanTerm | src/components/vocab/VocabHub.tsx:181-187 | a term shorter than two characters is not looked up; otherwise the trimmed, lower-cased term is looked up, less its leading "to " when it has one |
| Vocab.CleanTermExample | src/components/vocab/VocabHub.tsx:181-187 | " To Go" is looked up as "go" |
| Vocab.TrimExample | src/components/vocab/VocabHub.tsx:186 | trimming " To Go" gives "To Go" |
| Vocab.LowerExample | src/components/vocab/VocabHub.tsx:186 | lower-casing "To Go" gives "to go" |
| Vocab.AutoLookupProceeds | src/components/vocab/VocabHub.tsx:237-245 | an automatic lookup always passes the lookup's length guard |
| Vocab.NewWord | src/components/vocab/VocabHub.tsx:249-257 | the new word carries the dialog's term, meaning, example, origin and category, the given id and the creation time, and can be deleted exactly when it has an id |
| Vocab.VocabHub.constructor | src/components/vocab/VocabHub.tsx:163-173 | empty search, no words, closed dialog, empty fields with category "daily" |
| Vocab.VocabHub.Mount | src/components/vocab/VocabHub.tsx:175-177 | the words become what `getVocab` reads, or a read failure is reported |
| Vocab.VocabHub.SetSearchQuery | src/components/vocab/VocabHub.tsx:163 | only the query changes |
| Vocab.VocabHub.SetOpen | src/components/vocab/VocabHub.tsx:165 | only the dialog flag changes |
| Vocab.VocabHub.EditForm | src/components/vocab/VocabHub.tsx:169-173 | only the fields change |
| Vocab.VocabHub.Lookup | src/components/vocab/VocabHub.tsx:180-234 | a too-short term changes nothing; a found meaning fills the meaning field, and a found example the example field; otherwise the fields stay; the searching flag ends cleared |
| Vocab.VocabHub.Add | src/components/vocab/VocabHub.tsx:247-274 | the new word goes first, the list is saved and reads back, the dialog closes and the fields clear except the category |
| Vocab.VocabHub.Delete | src/components/vocab/VocabHub.tsx:276-284 | the words lose the id, and the list is saved and reads back |
| QuantVault.KeptFormulas | src/components/quant/QuantVault.tsx:445-449 | keeps, in order, exactly the formulas whose name or LaTeX, or whose sub-topic's name, contains the query, ignoring case, each as often as before |
| QuantVault.MapSubTopics | src/components/quant/QuantVault.tsx:443-449 | every sub-topic keeps its place with its formulas filtered |
| QuantVault.NonEmptySubTopics | src/components/quant/QuantVault.tsx:450 | keeps, in order, exactly the sub-topics with formulas left, each as often as before |
| QuantVault.NonEmptySubTopicsKeepsAll | src/components/quant/QuantVault.tsx:450 | a list whose every sub-topic has formulas is kept whole |
| QuantVault.MapCategories | src/components/quant/QuantVault.tsx:442-455 | every category keeps its place with its sub-topics filtered |
| QuantVault.NonEmptyCategories | src/components/quant/QuantVault.tsx:456 | keeps, in order, exactly the categories with sub-topics left, each as often as before |
| QuantVault.FilteredCategories | src/components/quant/QuantVault.tsx:442-456 | the vault shows exactly the filtered categories that still have sub-topics |
| QuantVault.NonEmptyCategoriesKeepsAll | src/components/quant/QuantVault.tsx:456 | a list whose every category has sub-topics is kept whole |
| QuantVault.SubTopicSurvival | src/components/quant/QuantVault.tsx:443-450 | a filtered sub-topic is shown exactly when formulas remain in it |
| QuantVault.CategorySurvival | src/components/quant/QuantVault.tsx:442-456 | a filtered category is shown exactly when sub-topics remain in it |
| QuantVault.SubTopicNameKeepsAll | src/components/quant/QuantVault.tsx:449 | a query matching the sub-topic's name keeps all its formulas |
| QuantVault.FilteredSubTopicsWithin | src/components/quant/QuantVault.tsx:443-450 | each shown sub-topic is an original one with some of its formulas, in order |
| QuantVault.FilteredWithin | src/components/quant/QuantVault.tsx:442-456 | the result only removes: each shown category is an original one reduced |
| QuantVault.EmptyQueryKeepsFormulas | src/components/quant/QuantVault.tsx:445-449 | an empty query keeps every formula |
| QuantVault.EmptyQueryKeepsAll | src/components/quant/QuantVault.tsx:442-456 | with an empty query and no empty groups, the vault shows everything |
| QuantVault.FilteredRuleCount | src/components/quant/QuantVault.tsx:492 | dropping empty sub-topics does not change the rule count, and filtering never raises it |
| QuantVault.MappedRuleCount | src/components/quant/QuantVault.tsx:492 | filtering formulas never raises the rule count |
| QuantVault.RuleCount | src/components/quant/QuantVault.tsx:492 | the count is zero exactly when no sub-topic has a formula |
| Pomodoro.PomodoroTimer.constructor | src/components/study/PomodoroTimer.tsx:9-13 | 25:00, stopped, in the work phase, no sessions |
| Pomodoro.PomodoroTimer.Tick | src/components/study/PomodoroTimer.tsx:17-29 | a running timer loses one second, borrowing from the minutes at :00; at 0:00 the phase ends |
| Pomodoro.PomodoroTimer.Complete | src/components/study/PomodoroTimer.tsx:40-64 | the timer stops; a finished work phase counts a session and starts 5:00 of break, while a finished break returns to 25:00 of work |
| Pomodoro.PomodoroTimer.Toggle | src/components/study/PomodoroTimer.tsx:66-68 | only the running flag flips |
| Pomodoro.PomodoroTimer.Reset | src/components/study/PomodoroTimer.tsx:70-75 | stopped at 25:00 in the work phase, keeping the session tally |
| Pomodoro.RunInterval | src/components/study/PomodoroTimer.tsx:17-29 | a running timer reaches the end of its phase after one tick per second left plus one, and then switches phase |
| Flashcards.NextIndex | src/components/quant/FormulaFlashcards.tsx:26-29 | the next card, wrapping from the last to the first |
| Flashcards.PreviousIndex | src/components/quant/FormulaFlashcards.tsx:31-34 | the previous card, wrapping from the first to the last |
| Flashcards.NextPreviousInverse | src/components/quant/FormulaFlashcards.tsx:26-34 | next and previous undo each other |
| Flashcards.FullRound | src/components/quant/FormulaFlashcards.tsx:26-29 | as many "next" presses as there are cards return to the same card |
| Flashcards.FlashcardDeck.constructor | src/components/quant/FormulaFlashcards.tsx:52-58 | a non-empty deck opens on the first card, face up, nothing mastered |
| Flashcards.FlashcardDeck.Next | src/components/quant/FormulaFlashcards.tsx:26-29 | moves to the next card face up |
| Flashcards.FlashcardDeck.Previous | src/components/quant/FormulaFlashcards.tsx:31-34 | moves to the previous card face up |
| Flashcards.FlashcardDeck.ToggleMastered | src/components/quant/FormulaFlashcards.tsx:42-50 | the current card joins the mastered set if absent and leaves it if present |
| Flashcards.FlashcardDeck.Flip | src/components/quant/FormulaFlashcards.tsx:75 | only the face turns over |
| Flashcards.FlashcardDeck.MasteredCount | src/components/quant/FormulaFlashcards.tsx:68 | the mastered count never exceeds the number of cards |
| Flashcards.ToggleTwice | src/components/quant/FormulaFlashcards.tsx:42-50 | marking the same card twice restores the set |
| Dashboard.ProgressPercent | src/pages/Dashboard.tsx:39-41 | `Percent` of the completed count over the list length, so between 0 and 100, 100 when all are done and 0 when none are; no figure for an empty list, where the source divides by zero |
| Dashboard.NoneCompleted | src/pages/Dashboard.tsx:40 | a list with nothing done has a done count of zero |
| Dashboard.LatestScore | src/pages/Dashboard.tsx:43-47 | the first score's total when there are scores, none otherwise |
| Dashboard.LatestIsNewest | src/pages/Dashboard.tsx:43-47 | a score just submitted (prepended) is the latest |
| Dashboard.Greeting | src/pages/Dashboard.tsx:65 | the first space-separated word of the name, or "Aspirant" when it is empty or there is no user |
| Dashboard.GreetingOfEntered | src/pages/Dashboard.tsx:65 | an entered user is greeted by the first word of the trimmed name |
| Dashboard.Load | src/pages/Dashboard.tsx:38-47 | the mount effect reads progress first and then the scores. A failure of the first read is returned before the second is tried. When both reads succeed, the figures are `ProgressPercent` of the progress, the number of scores and `LatestScore` of the scores |
| Dashboard.FreshDashboard | src/pages/Dashboard.tsx:38-47 | on a store without progress or scores the dashboard shows 0 %, no mock tests and no latest score |
| Text.Trim | src/components/dashboard/DailyGoals.tsx:35-39 | `trim`: no blank at either end, and empty exactly for a blank text |
| Text.TrimIdempotent | src/contexts/AuthContext.tsx:24-25 | trimming twice is trimming once |
| Text.Lower | src/components/vocab/VocabHub.tsx:94-95 | `toLowerCase` on ASCII letters, character by character |
| Text.LowerOfLower | src/components/vocab/VocabHub.tsx:94-95 | lower-casing twice is lower-casing once |
| Text.FirstToken | src/pages/Dashboard.tsx:65 | `split(' ')[0]`: the longest prefix without a space |
| Text.IntRoundTrip | src/components/tracker/MockScoreTracker.tsx:83-87 | `parseInt(…) \|\| 0` reads back an integer's decimal text |
| Text.IntToDecimal | src/components/dashboard/DailyLog.tsx:28-29 | `toString` of a number is non-empty and starts with no whitespace, so it is read from its first character |
| Text.NoDigitsReadsZero | src/components/tracker/MockScoreTracker.tsx:83-87 | a text without digits reads as zero |

The components' view functions have no contract of their own and no row. Each only applies a rowed function to the component's state:
- `MockScores.MockScoreTracker.Sorted`, `Average` and `Highest` apply `SortScores`, `AverageTotal` and `HighestScore`;
- `Progress.ProgressTracker.ShownQuant` and `View` apply `ShownQuantItems` and `Summarize`;
- `Vocab.VocabHub.Shown` applies `Search` to `Tab`;
- `DailyGoals.DailyGoalsCard.Completed` applies `CompletedGoals`.

## Left out

- `localStorage` itself and `JSON.stringify`/`JSON.parse` are replaced by a map and a canonical text codec of the same JSON values. The model does not pin the exact JSON text the browser writes. Absent optional sections are written as `null`, not omitted. Any text the codec cannot parse is treated as text `JSON.parse` rejects.
- `Storage.ReadList`, `Storage.ReadUser` and the `Get…` getters report stored JSON of the wrong shape as a `Mistyped` failure. `src/lib/storage.ts:61-118` returns `JSON.parse`'s value unchecked, and the program carries a wrongly shaped value on until some later use of it misbehaves or throws. The model does not follow such values.
- Dates are integers. Time stamps are milliseconds since the epoch. A goal's day is that number divided by 86 400 000, a UTC day: the browser's local time zone used by `toDateString` is not modelled. A log's `yyyy-MM-dd` date is a day number.
- The clock, `Date.now()` ids and `new Date()` are parameters of the methods that use them.
- The dictionary request in `performLookup` is a parameter. `Vocab.VocabHub.Lookup` receives the parsed response, or `None` for a failed or non-ok request. Asynchrony, the toasts and the request URL are not modelled.
- Speech synthesis, toasts, the 1 500 ms debounce timer, the one-second countdown interval and the one-second pomodoro interval are not modelled as time. The interval is modelled as repeated calls (`Pomodoro.RunInterval`); the debounce condition is `Vocab.ShouldAutoLookup`.
- Floating point: `Math.round` on quotients is modelled exactly on integers. So `Progress.Percent`, `MockScores.AverageTotal` and `Dashboard.ProgressPercent` round halves up as `Math.round` does, but no binary floating-point error is modelled.
- `Dashboard.ProgressPercent`: for an empty progress list the source computes `NaN`; the model returns no figure.
- `Text.Lower` only lower-cases the ASCII letters A–Z; Unicode case mapping is not modelled.
- The `User` record has a name and a creation time. The interface's `email` field is never set by `enter` and is not modelled.
- A syllabus item's `label` is called `topic` in the model; it is still written under the key "label".
- In `FormulaFlashcards`, `Math.random` in the shuffle and the formula data are not modelled; the deck is `n` cards, indexed from 0.
- `QuantVault`: the built-in formula data (`formulaData`) is not modelled. The filter is proved for any list of categories. Rendering with KaTeX is left out.
- `VocabHub`: the built-in idioms, phrasal verbs and daily words are modelled as data, but their card category, `createdAt` and styling are not.
- `MockScores.MockScoreTracker.Submit` requires a date, because the date input of the form is `required`.
- `Vocab.VocabHub.Add` requires a term and a meaning, because both inputs of the dialog are `required`.
- `Progress.AlgebraRunClassified`, `Progress.GeometryRunClassified`, `Progress.ModernMathRunClassified`: for the seed topics classified by keyword these show only that the topic lands in some unit, not which unit. For the prefixed topics the exact unit is proved (`Progress.AlgebraLabels` and its siblings).
- The text search in `Vocab.Search` and `QuantVault.KeptFormulas` is over `Text.Lower`, so it has the same ASCII-only limit.
- The auth components `LoginForm` and `SignupForm` render nothing of interest. Page layouts, navigation, the command palette and the resource pages are user interface only, and are not part of this model.
