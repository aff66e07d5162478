/**
 * src/lib/storage.ts: the browser's `localStorage` as a map from keys to
 * texts, one key per collection; the getters that fall back to a default when
 * nothing is stored; the setters that overwrite a whole collection; the
 * 50-topic syllabus seed; and the countdown to the exam.
 */
module Storage {
  import opened Wrappers
  import opened Text
  import opened Json
  import opened Records

  // ---------------------------------------------------------------------------
  // Keys and stored texts

  const UserKey: string := "ipmat_user"
  const ProgressKey: string := "ipmat_progress"
  const MockScoresKey: string := "ipmat_mock_scores"
  const DailyGoalsKey: string := "ipmat_daily_goals"
  const DailyLogsKey: string := "ipmat_daily_logs"
  const VocabKey: string := "ipmat_vocab"

  function Keys(): seq<string> {
    [UserKey, ProgressKey, MockScoresKey, DailyGoalsKey, DailyLogsKey, VocabKey]
  }

  /** The six keys are distinct and share the application's prefix. */
  lemma KeysDistinct()
    ensures forall i, j :: 0 <= i < j < |Keys()| ==> Keys()[i] != Keys()[j]
    ensures forall i :: 0 <= i < |Keys()| ==> StartsWith(Keys()[i], "ipmat_")
  {
  }

  /**
   * A stored text that cannot be read back. The application has no `try`
   * around `JSON.parse`, and uses what it parsed as the collection it expects,
   * so either case ends in an exception there.
   */
  datatype StoreError = Unparsable(key: string) | Mistyped(key: string)

  /** `localStorage.getItem(key)` when it is truthy: a missing key and the empty text both count as nothing stored. */
  function Stored(entries: map<string, string>, key: string): (r: Option<string>)
    ensures r.Some? <==> key in entries && entries[key] != ""
    ensures r.Some? ==> r.value == entries[key]
  {
    if key in entries && entries[key] != "" then Some(entries[key]) else None
  }

  /** The value under `key`, `None` when nothing is stored, or why the stored text is unusable. */
  function ReadJson(entries: map<string, string>, key: string): (r: Result<Option<Json>, StoreError>)
    ensures r.Success? && r.value.None? <==> Stored(entries, key).None?
    ensures r.Failure? ==> r.error == Unparsable(key)
  {
    match Stored(entries, key)
    case None => Success(None)
    case Some(t) =>
      match Parse(t)
      case None => Failure(Unparsable(key))
      case Some(j) => Success(Some(j))
  }

  /** What a setter stores: `JSON.stringify` of the value. */
  function Write(v: Json): (t: string)
    ensures t != ""
  {
    SerializeStart(v);
    Serialize(v)
  }

  /** A stored collection, or `default` when the key holds nothing. */
  function ReadList<T>(entries: map<string, string>, key: string, default: seq<T>, dec: Json -> Option<T>): (r: Result<seq<T>, StoreError>)
    ensures Stored(entries, key).None? ==> r == Success(default)
  {
    var j :- ReadJson(entries, key);
    match j
    case None => Success(default)
    case Some(v) =>
      match ListFromJson(v, dec)
      case None => Failure(Mistyped(key))
      case Some(xs) => Success(xs)
  }

  /** Whatever text is written under `key` is read back as that value. */
  lemma ReadWritten(entries: map<string, string>, key: string, v: Json)
    ensures ReadJson(entries[key := Write(v)], key) == Success(Some(v))
  {
    ParseSerialize(v);
  }

  /** Reading a list back after writing it. */
  lemma ReadListWritten<T>(entries: map<string, string>, key: string, default: seq<T>, xs: seq<T>, enc: T -> Json, dec: Json -> Option<T>)
    requires forall x :: dec(enc(x)) == Some(x)
    ensures ReadList(entries[key := Write(ListToJson(xs, enc))], key, default, dec) == Success(xs)
  {
    ReadWritten(entries, key, ListToJson(xs, enc));
    ListRoundTrip(xs, enc, dec);
  }

  // ---------------------------------------------------------------------------
  // The getters as functions of the stored texts

  /** `getUser`: nothing stored, or a stored `null`, is no user. */
  function ReadUser(entries: map<string, string>): (r: Result<Option<User>, StoreError>)
    ensures Stored(entries, UserKey).None? ==> r == Success(None)
  {
    var j :- ReadJson(entries, UserKey);
    match j
    case None => Success(None)
    case Some(v) =>
      match UserFromJson(v)
      case None => Failure(Mistyped(UserKey))
      case Some(u) => Success(u)
  }

  function ReadProgress(entries: map<string, string>): Result<seq<ProgressItem>, StoreError> {
    ReadList(entries, ProgressKey, DefaultProgress(), ProgressFromJson)
  }

  function ReadMockScores(entries: map<string, string>): Result<seq<MockScore>, StoreError> {
    ReadList(entries, MockScoresKey, [], MockScoreFromJson)
  }

  function ReadDailyGoals(entries: map<string, string>): Result<seq<DailyGoal>, StoreError> {
    ReadList(entries, DailyGoalsKey, [], GoalFromJson)
  }

  function ReadDailyLogs(entries: map<string, string>): Result<seq<DailyLog>, StoreError> {
    ReadList(entries, DailyLogsKey, [], LogFromJson)
  }

  function ReadVocab(entries: map<string, string>): Result<seq<UserVocabItem>, StoreError> {
    ReadList(entries, VocabKey, [], VocabFromJson)
  }

  /** A key that was never written reads as its default: the seed for progress, nothing for the rest. */
  lemma ReadDefaults(entries: map<string, string>)
    ensures UserKey !in entries ==> ReadUser(entries) == Success(None)
    ensures ProgressKey !in entries ==> ReadProgress(entries) == Success(DefaultProgress())
    ensures MockScoresKey !in entries ==> ReadMockScores(entries) == Success([])
    ensures DailyGoalsKey !in entries ==> ReadDailyGoals(entries) == Success([])
    ensures DailyLogsKey !in entries ==> ReadDailyLogs(entries) == Success([])
    ensures VocabKey !in entries ==> ReadVocab(entries) == Success([])
  {
  }

  /** Writing another key does not change what a list getter reads. */
  lemma ReadListOther<T>(entries: map<string, string>, key: string, k: string, t: string, default: seq<T>, dec: Json -> Option<T>)
    requires k != key
    ensures ReadList(entries[k := t], key, default, dec) == ReadList(entries, key, default, dec)
  {
    assert Stored(entries[k := t], key) == Stored(entries, key);
  }

  /** Writing another key does not change the stored user. */
  lemma ReadUserOther(entries: map<string, string>, k: string, t: string)
    requires k != UserKey
    ensures ReadUser(entries[k := t]) == ReadUser(entries)
  {
    assert Stored(entries[k := t], UserKey) == Stored(entries, UserKey);
  }

  // ---------------------------------------------------------------------------
  // The store

  /** `window.localStorage`, holding the application's texts by key. */
  class RecordStore {
    var entries: map<string, string>

    constructor (initial: map<string, string>)
      ensures entries == initial
    {
      entries := initial;
    }

    function GetUser(): Result<Option<User>, StoreError>
      reads this
    {
      ReadUser(entries)
    }

    function GetProgress(): Result<seq<ProgressItem>, StoreError>
      reads this
    {
      ReadProgress(entries)
    }

    function GetMockScores(): Result<seq<MockScore>, StoreError>
      reads this
    {
      ReadMockScores(entries)
    }

    function GetDailyGoals(): Result<seq<DailyGoal>, StoreError>
      reads this
    {
      ReadDailyGoals(entries)
    }

    function GetDailyLogs(): Result<seq<DailyLog>, StoreError>
      reads this
    {
      ReadDailyLogs(entries)
    }

    function GetVocab(): Result<seq<UserVocabItem>, StoreError>
      reads this
    {
      ReadVocab(entries)
    }

    method SetUser(u: User)
      modifies this
      ensures entries == old(entries)[UserKey := Write(UserToJson(u))]
      ensures GetUser() == Success(Some(u))
    {
      entries := entries[UserKey := Write(UserToJson(u))];
      ReadWritten(old(entries), UserKey, UserToJson(u));
      UserRoundTrip(u);
    }

    method ClearUser()
      modifies this
      ensures entries == old(entries) - {UserKey}
      ensures GetUser() == Success(None)
    {
      entries := entries - {UserKey};
    }

    method SetProgress(items: seq<ProgressItem>)
      modifies this
      ensures entries == old(entries)[ProgressKey := Write(ListToJson(items, ProgressToJson))]
      ensures GetProgress() == Success(items)
    {
      entries := entries[ProgressKey := Write(ListToJson(items, ProgressToJson))];
      forall p ensures ProgressFromJson(ProgressToJson(p)) == Some(p) {
        ProgressRoundTrip(p);
      }
      ReadListWritten(old(entries), ProgressKey, DefaultProgress(), items, ProgressToJson, ProgressFromJson);
    }

    method SetMockScores(scores: seq<MockScore>)
      modifies this
      ensures entries == old(entries)[MockScoresKey := Write(ListToJson(scores, MockScoreToJson))]
      ensures GetMockScores() == Success(scores)
    {
      entries := entries[MockScoresKey := Write(ListToJson(scores, MockScoreToJson))];
      forall m ensures MockScoreFromJson(MockScoreToJson(m)) == Some(m) {
        MockScoreRoundTrip(m);
      }
      ReadListWritten(old(entries), MockScoresKey, [], scores, MockScoreToJson, MockScoreFromJson);
    }

    method SetDailyGoals(goals: seq<DailyGoal>)
      modifies this
      ensures entries == old(entries)[DailyGoalsKey := Write(ListToJson(goals, GoalToJson))]
      ensures GetDailyGoals() == Success(goals)
    {
      entries := entries[DailyGoalsKey := Write(ListToJson(goals, GoalToJson))];
      forall g ensures GoalFromJson(GoalToJson(g)) == Some(g) {
        GoalRoundTrip(g);
      }
      ReadListWritten(old(entries), DailyGoalsKey, [], goals, GoalToJson, GoalFromJson);
    }

    method SetDailyLogs(logs: seq<DailyLog>)
      modifies this
      ensures entries == old(entries)[DailyLogsKey := Write(ListToJson(logs, LogToJson))]
      ensures GetDailyLogs() == Success(logs)
    {
      entries := entries[DailyLogsKey := Write(ListToJson(logs, LogToJson))];
      forall l ensures LogFromJson(LogToJson(l)) == Some(l) {
        LogRoundTrip(l);
      }
      ReadListWritten(old(entries), DailyLogsKey, [], logs, LogToJson, LogFromJson);
    }

    method SetVocab(vocab: seq<UserVocabItem>)
      modifies this
      ensures entries == old(entries)[VocabKey := Write(ListToJson(vocab, VocabToJson))]
      ensures GetVocab() == Success(vocab)
    {
      entries := entries[VocabKey := Write(ListToJson(vocab, VocabToJson))];
      forall v ensures VocabFromJson(VocabToJson(v)) == Some(v) {
        VocabRoundTrip(v);
      }
      ReadListWritten(old(entries), VocabKey, [], vocab, VocabToJson, VocabFromJson);
    }
  }

  // ---------------------------------------------------------------------------
  // The syllabus seed

  /** Each label of `suffixes` behind the common prefix `p`. */
  function Prefixed(p: string, suffixes: seq<string>): (r: seq<string>)
    ensures |r| == |suffixes|
    ensures forall i :: 0 <= i < |r| ==> r[i] == p + suffixes[i]
  {
    seq(|suffixes|, i requires 0 <= i < |suffixes| => p + suffixes[i])
  }

  /** The 37 quant topics `q1`..`q37`, listed unit by unit. */
  function QuantTopics(): (r: seq<string>)
    ensures |r| == 37
  {
    AlgebraRun() + ArithmeticRun() + GeometryRun() + ModernMathRun() + NumberSystemRun()
  }

  function AlgebraRun(): (r: seq<string>)
    ensures |r| == 9
  {
    ["Progression & Series", "Functions", "Modulus", "Inequalities"]
    + Prefixed("Algebra - ", AlgebraSubtopics())
    + ["Indices", "Minima & Maxima", "Identities"]
  }

  function AlgebraSubtopics(): (r: seq<string>)
    ensures |r| == 2
  {
    ["Quadratic & Higher Degrees", "Linear Equations"]
  }

  function ArithmeticRun(): (r: seq<string>)
    ensures |r| == 8
  {
    Prefixed("Arithmetic - ", ArithmeticSubtopics())
  }

  function ArithmeticSubtopics(): (r: seq<string>)
    ensures |r| == 8
  {
    ["Ratio, Proportion & Variation", "Time, Speed & Distance", "Mean, Median & Mode",
     "Simple & Compound Interest", "Profit & Loss", "Averages", "Mixtures & Alligation",
     "Time & Work"]
  }

  function GeometryRun(): (r: seq<string>)
    ensures |r| == 8
  {
    ["Trigonometry"] + Prefixed("Geometry - ", GeometrySubtopics()) + ["Conic Sections"]
  }

  function GeometrySubtopics(): (r: seq<string>)
    ensures |r| == 6
  {
    ["Triangles", "Circles", "Straight Lines", "Quadrilaterals", "Solids", "Polygons"]
  }

  function ModernMathRun(): (r: seq<string>)
    ensures |r| == 6
  {
    Prefixed("Modern Math - ", ModernMathSubtopics()) + ["Logarithm", "Binomial Theorem"]
  }

  function ModernMathSubtopics(): (r: seq<string>)
    ensures |r| == 4
  {
    ["Permutation & Combination", "Set Theory", "Probability", "Matrices & Determinants"]
  }

  function NumberSystemRun(): (r: seq<string>)
    ensures |r| == 6
  {
    Prefixed("Number System - ", NumberSystemSubtopics())
  }

  function NumberSystemSubtopics(): (r: seq<string>)
    ensures |r| == 6
  {
    ["Divisibility Rules", "Remainder", "Factorials", "Integral Solutions", "Unit Digits", "HCF & LCM"]
  }

  function LrdiTopics(): (r: seq<string>)
    ensures |r| == 5
  {
    Prefixed("LRDI - ", LrdiSubtopics())
  }

  function LrdiSubtopics(): (r: seq<string>)
    ensures |r| == 5
  {
    ["Allocations & Arrangement", "Tournaments", "Bar Graphs", "Tabular Data", "Weights"]
  }

  function VerbalTopics(): (r: seq<string>)
    ensures |r| == 8
  {
    ["Reading Comprehension", "Fill-ups: Idioms, Phrases & Words", "Fill-ups: Phrasal Verbs",
     "Sentence Correction (Grammar)", "Paracompletion", "Vocabulary", "Incorrect Word Usage",
     "Parajumbles"]
  }

  /** Topics numbered from 1 under an id prefix, none completed. */
  function Numbered(prefix: char, topics: seq<string>, category: Category): (r: seq<ProgressItem>)
    ensures |r| == |topics|
    ensures forall i :: 0 <= i < |r| ==> r[i] == ProgressItem([prefix] + NatToDecimal(i + 1), topics[i], false, category)
  {
    seq(|topics|, i requires 0 <= i < |topics| => ProgressItem([prefix] + NatToDecimal(i + 1), topics[i], false, category))
  }

  /** The seed's shape over any three topic lists: quants `q…`, reasoning `l…` filed under quants, verbal `v…`. */
  function SeedOf(quants: seq<string>, lrdi: seq<string>, verbal: seq<string>): seq<ProgressItem> {
    Numbered('q', quants, Quants) + Numbered('l', lrdi, Quants) + Numbered('v', verbal, Verbal)
  }

  /** `getDefaultProgress`: 37 quant topics `q1`..`q37`, five reasoning topics `l1`..`l5` filed under quants, eight verbal topics `v1`..`v8`. */
  function DefaultProgress(): seq<ProgressItem> {
    SeedOf(QuantTopics(), LrdiTopics(), VerbalTopics())
  }

  function CountCategory(items: seq<ProgressItem>, c: Category): (n: nat)
    ensures n <= |items|
  {
    if items == [] then 0 else (if items[0].category == c then 1 else 0) + CountCategory(items[1..], c)
  }

  lemma {:induction false} CountAppend(a: seq<ProgressItem>, b: seq<ProgressItem>, c: Category)
    ensures CountCategory(a + b, c) == CountCategory(a, c) + CountCategory(b, c)
  {
    if a != [] {
      assert (a + b)[1..] == a[1..] + b;
      CountAppend(a[1..], b, c);
    } else {
      assert a + b == b;
    }
  }

  /** Counting a run that is all of one category. */
  lemma {:induction false} CountUniform(items: seq<ProgressItem>, c: Category, d: Category)
    requires forall i :: 0 <= i < |items| ==> items[i].category == d
    ensures CountCategory(items, c) == if c == d then |items| else 0
  {
    if items != [] {
      CountUniform(items[1..], c, d);
    }
  }

  /** The seed's index `i` has id `[SeedPrefix(i)] + NatToDecimal(SeedNumber(i))`. */
  function SeedPrefix(i: nat): char {
    if i < 37 then 'q' else if i < 42 then 'l' else 'v'
  }

  function SeedNumber(i: nat): nat {
    if i < 37 then i + 1 else if i < 42 then i - 36 else i - 41
  }

  /** The three topic lists have the seed's lengths. */
  predicate SeedSized(quants: seq<string>, lrdi: seq<string>, verbal: seq<string>) {
    |quants| == 37 && |lrdi| == 5 && |verbal| == 8
  }

  lemma SeedItemOf(quants: seq<string>, lrdi: seq<string>, verbal: seq<string>, i: nat)
    requires SeedSized(quants, lrdi, verbal) && i < 50
    ensures |SeedOf(quants, lrdi, verbal)| == 50
    ensures SeedOf(quants, lrdi, verbal)[i].topic == if i < 37 then quants[i] else if i < 42 then lrdi[i - 37] else verbal[i - 42]
    ensures SeedOf(quants, lrdi, verbal)[i].id == [SeedPrefix(i)] + NatToDecimal(SeedNumber(i))
    ensures !SeedOf(quants, lrdi, verbal)[i].completed
    ensures SeedOf(quants, lrdi, verbal)[i].category == if i < 42 then Quants else Verbal
  {
    var q := Numbered('q', quants, Quants);
    var l := Numbered('l', lrdi, Quants);
    var v := Numbered('v', verbal, Verbal);
    var s := SeedOf(quants, lrdi, verbal);
    if i < 37 {
      assert s[i] == q[i];
    } else if i < 42 {
      assert s[i] == l[i - 37];
    } else {
      assert s[i] == v[i - 42];
    }
  }

  /** The seed's ids are pairwise distinct, whatever the topics. */
  lemma SeedIdsDistinctOf(quants: seq<string>, lrdi: seq<string>, verbal: seq<string>)
    requires SeedSized(quants, lrdi, verbal)
    ensures |SeedOf(quants, lrdi, verbal)| == 50
    ensures forall i, j :: 0 <= i < j < 50 ==> SeedOf(quants, lrdi, verbal)[i].id != SeedOf(quants, lrdi, verbal)[j].id
  {
    SeedItemOf(quants, lrdi, verbal, 0);
    forall i, j | 0 <= i < j < 50
      ensures SeedOf(quants, lrdi, verbal)[i].id != SeedOf(quants, lrdi, verbal)[j].id
    {
      SeedItemOf(quants, lrdi, verbal, i);
      SeedItemOf(quants, lrdi, verbal, j);
      SeedIdDiffers(i, j);
    }
  }

  lemma SeedIdDiffers(i: nat, j: nat)
    requires i < j < 50
    ensures [SeedPrefix(i)] + NatToDecimal(SeedNumber(i)) != [SeedPrefix(j)] + NatToDecimal(SeedNumber(j))
  {
    var a, b := NatToDecimal(SeedNumber(i)), NatToDecimal(SeedNumber(j));
    if [SeedPrefix(i)] + a == [SeedPrefix(j)] + b {
      assert ([SeedPrefix(i)] + a)[0] == SeedPrefix(i) && ([SeedPrefix(j)] + b)[0] == SeedPrefix(j);
      assert ([SeedPrefix(i)] + a)[1..] == a && ([SeedPrefix(j)] + b)[1..] == b;
      DecimalInjective(SeedNumber(i), SeedNumber(j));
    }
  }

  lemma NumberedCount(prefix: char, topics: seq<string>, category: Category, c: Category)
    ensures CountCategory(Numbered(prefix, topics, category), c) == if c == category then |topics| else 0
  {
    CountUniform(Numbered(prefix, topics, category), c, category);
  }

  /** Counting one category over the seed's three runs. */
  lemma SeedCountOf(quants: seq<string>, lrdi: seq<string>, verbal: seq<string>, c: Category)
    requires SeedSized(quants, lrdi, verbal)
    ensures CountCategory(SeedOf(quants, lrdi, verbal), c) == if c == Quants then 42 else 8
  {
    var q := Numbered('q', quants, Quants);
    var l := Numbered('l', lrdi, Quants);
    var v := Numbered('v', verbal, Verbal);
    CountAppend(q + l, v, c);
    CountAppend(q, l, c);
    NumberedCount('q', quants, Quants, c);
    NumberedCount('l', lrdi, Quants, c);
    NumberedCount('v', verbal, Verbal, c);
  }

  /** The seed's own topic lists have the seed's lengths. */
  lemma SeedListsSized()
    ensures SeedSized(QuantTopics(), LrdiTopics(), VerbalTopics())
  {
  }

  /** Nothing in the seed starts out completed, whatever the topics. */
  lemma SeedOfNotCompleted(quants: seq<string>, lrdi: seq<string>, verbal: seq<string>)
    ensures forall i :: 0 <= i < |SeedOf(quants, lrdi, verbal)| ==> !SeedOf(quants, lrdi, verbal)[i].completed
  {
    var q := Numbered('q', quants, Quants);
    var l := Numbered('l', lrdi, Quants);
    var v := Numbered('v', verbal, Verbal);
    forall i | 0 <= i < |SeedOf(quants, lrdi, verbal)|
      ensures !SeedOf(quants, lrdi, verbal)[i].completed
    {
      var s := SeedOf(quants, lrdi, verbal);
      if i < |q| {
        assert s[i] == q[i];
      } else if i < |q| + |l| {
        assert s[i] == l[i - |q|];
      } else {
        assert s[i] == v[i - |q| - |l|];
      }
    }
  }

  /** The seed is not empty and has no completed topic. */
  lemma SeedNotCompleted()
    ensures DefaultProgress() != []
    ensures forall i :: 0 <= i < |DefaultProgress()| ==> !DefaultProgress()[i].completed
  {
    SeedListsSized();
    SeedOfNotCompleted(QuantTopics(), LrdiTopics(), VerbalTopics());
  }

  /** The seed: 50 topics with pairwise distinct ids, none completed, 42 under quants and 8 verbal. */
  lemma DefaultProgressShape()
    ensures |DefaultProgress()| == 50
    ensures forall i, j :: 0 <= i < j < 50 ==> DefaultProgress()[i].id != DefaultProgress()[j].id
    ensures forall i :: 0 <= i < 50 ==> !DefaultProgress()[i].completed
    ensures CountCategory(DefaultProgress(), Quants) == 42
    ensures CountCategory(DefaultProgress(), Verbal) == 8
  {
    var qs, ls, vs := QuantTopics(), LrdiTopics(), VerbalTopics();
    SeedListsSized();
    SeedIdsDistinctOf(qs, ls, vs);
    SeedCountOf(qs, ls, vs, Quants);
    SeedCountOf(qs, ls, vs, Verbal);
    SeedOfNotCompleted(qs, ls, vs);
  }

  // ---------------------------------------------------------------------------
  // The exam countdown

  const SecondMs: int := 1000
  const MinuteMs: int := 60 * SecondMs
  const HourMs: int := 60 * MinuteMs
  const DayMs: int := 24 * HourMs

  /** 2026-05-04T14:00:00+05:30 in milliseconds since the epoch. */
  const ExamInstantMs: int := 1777883400000

  /** `Math.ceil(a / b)` for a positive divisor. */
  function CeilDiv(a: int, b: int): (q: int)
    requires b > 0
    ensures (q - 1) * b < a <= q * b
  {
    -((-a) / b)
  }

  /** `getDaysUntilIPMAT` at the instant `now`: whole days to go, rounded up, never negative. */
  function DaysUntil(now: int): (days: nat)
    ensures ExamInstantMs - now <= 0 ==> days == 0
    ensures ExamInstantMs - now > 0 ==> (days - 1) * DayMs < ExamInstantMs - now <= days * DayMs
  {
    var d := CeilDiv(ExamInstantMs - now, DayMs);
    if d < 0 then 0 else d
  }

  datatype CountdownTime = CountdownTime(days: int, hours: int, minutes: int, seconds: int, totalMs: int)

  /** `getCountdownToIPMAT` at the instant `now`. */
  function Countdown(now: int): (c: CountdownTime)
    ensures ExamInstantMs - now <= 0 ==> c == CountdownTime(0, 0, 0, 0, 0)
    ensures ExamInstantMs - now > 0 ==>
      c.totalMs == ExamInstantMs - now && 0 <= c.days
      && 0 <= c.hours <= 23 && 0 <= c.minutes <= 59 && 0 <= c.seconds <= 59
      && Elapsed(c) <= c.totalMs < Elapsed(c) + SecondMs
  {
    var d := ExamInstantMs - now;
    if d <= 0 then CountdownTime(0, 0, 0, 0, 0)
    else
      var c := CountdownTime(d / DayMs, (d % DayMs) / HourMs, (d % HourMs) / MinuteMs, (d % MinuteMs) / SecondMs, d);
      SplitSpan(d);
      c
  }

  /** The milliseconds the day, hour, minute and second fields account for. */
  function Elapsed(c: CountdownTime): int {
    c.days * DayMs + c.hours * HourMs + c.minutes * MinuteMs + c.seconds * SecondMs
  }

  /** Splitting a positive span into days, hours, minutes and seconds loses less than a second. */
  lemma SplitSpan(d: int)
    requires d > 0
    ensures var c := CountdownTime(d / DayMs, (d % DayMs) / HourMs, (d % HourMs) / MinuteMs, (d % MinuteMs) / SecondMs, d);
      0 <= c.hours <= 23 && 0 <= c.minutes <= 59 && 0 <= c.seconds <= 59
      && Elapsed(c) <= d < Elapsed(c) + SecondMs
  {
    var r1 := d % DayMs;
    var r2 := d % HourMs;
    var r3 := d % MinuteMs;
    ModNest(d, d / DayMs, HourMs, 24);
    ModNest(d, d / HourMs, MinuteMs, 60);
    ModNest(d, d / MinuteMs, SecondMs, 60);
  }

  /** With `D = k * n`, the remainder by `n` of `d` equals that of `d % D`. */
  lemma ModNest(d: int, q: int, n: int, k: int)
    requires n > 0 && k > 0 && d >= 0
    requires q == d / (k * n)
    ensures d % (k * n) == ((d % (k * n)) / n) * n + d % n
    ensures 0 <= (d % (k * n)) / n < k
  {
    var big := k * n;
    var r := d % big;
    assert d == q * big + r;
    assert d == (q * k + r / n) * n + r % n by {
      assert r == (r / n) * n + r % n;
      assert q * big == (q * k) * n;
    }
    assert r % n == d % n by {
      LemmaModUnique(d, q * k + r / n, n, r % n);
    }
    assert r / n < k by {
      assert r < big;
      DivBound(r, n, k);
    }
  }

  /** The rounded-up day count is the countdown's whole days, plus one when a part day remains. */
  lemma DaysMatchCountdown(now: int)
    requires ExamInstantMs - now > 0
    ensures DaysUntil(now) == Countdown(now).days + (if (ExamInstantMs - now) % DayMs == 0 then 0 else 1)
  {
    var d := ExamInstantMs - now;
    var q, r := d / DayMs, d % DayMs;
    if r == 0 {
      LemmaModUnique(-d, -q, DayMs, 0);
    } else {
      LemmaModUnique(-d, -q - 1, DayMs, DayMs - r);
    }
  }

  /** Euclidean division has one quotient and remainder. */
  lemma LemmaModUnique(d: int, q: int, n: int, r: int)
    requires n > 0 && 0 <= r < n && d == q * n + r
    ensures d % n == r && d / n == q
  {
    var q0, r0 := d / n, d % n;
    assert (q - q0) * n == r0 - r;
    if q - q0 >= 1 {
      MulAtLeast(q - q0, n);
    } else if q - q0 <= -1 {
      MulAtLeast(q0 - q, n);
    }
  }

  lemma MulAtLeast(a: int, n: int)
    requires a >= 1 && n > 0
    ensures a * n >= n
  {
  }

  lemma DivBound(r: int, n: int, k: int)
    requires n > 0 && 0 <= r < k * n
    ensures r / n < k
  {
  }
}
