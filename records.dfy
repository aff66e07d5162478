/**
 * The persisted entities of src/lib/storage.ts and their JSON shapes.
 * Timestamps (`createdAt`, a mock's `date`) are milliseconds since the epoch
 * and a daily log's `date` is a day number; the application keeps all three as
 * date strings. Each entity has an encoder to a `Json` object and a decoder
 * back, and the decoder undoes the encoder.
 */
module Records {
  import opened Wrappers
  import opened Json

  // ---------------------------------------------------------------------------
  // Entities

  /** The signed-in user. Only the name is entered; there is no e-mail. */
  datatype User = User(name: string, createdAt: int)

  datatype Category = Quants | Verbal

  /** A syllabus topic with its done-mark. */
  datatype ProgressItem = ProgressItem(id: string, topic: string, completed: bool, category: Category)

  datatype ExamType = Indore | Rohtak | Jipmat

  /** Section marks: verbal for every exam, short-answer and MCQ for Indore, quants and reasoning for the others. */
  datatype Breakdown = Breakdown(va: int, sa: Option<int>, mcq: Option<int>, qa: Option<int>, lr: Option<int>)

  datatype MockScore = MockScore(id: string, mockName: string, examType: ExamType, date: int, breakdown: Breakdown, totalScore: int)

  datatype DailyGoal = DailyGoal(id: string, text: string, completed: bool, createdAt: int)

  datatype DailyLog = DailyLog(id: string, content: string, date: int, studyHours: int, studyMinutes: int)

  datatype VocabCategory = Idioms | Phrasal | Daily

  /** A word the user added; an empty example or origin is one the user left blank. */
  datatype UserVocabItem = UserVocabItem(id: string, term: string, meaning: string, example: string, origin: string, category: VocabCategory, createdAt: int)

  // ---------------------------------------------------------------------------
  // Reading object members

  /** The value of the first member named `key`, as `obj[key]` finds it. */
  function Field(ms: seq<Member>, key: string): (r: Option<Json>)
    ensures r.Some? ==> exists i :: 0 <= i < |ms| && ms[i] == Member(key, r.value)
  {
    if ms == [] then None
    else if ms[0].key == key then Some(ms[0].value)
    else Field(ms[1..], key)
  }

  /** Looking up a key in two runs of members looks in the first run, then the second. */
  lemma {:induction false} FieldAppend(a: seq<Member>, b: seq<Member>, key: string)
    ensures Field(a + b, key) == if Field(a, key).Some? then Field(a, key) else Field(b, key)
  {
    if a != [] {
      assert (a + b)[1..] == a[1..] + b;
      FieldAppend(a[1..], b, key);
    } else {
      assert a + b == b;
    }
  }

  function StrField(ms: seq<Member>, key: string): Option<string> {
    var v :- Field(ms, key);
    if v.JStr? then Some(v.s) else None
  }

  function NumField(ms: seq<Member>, key: string): Option<int> {
    var v :- Field(ms, key);
    if v.JNum? then Some(v.n) else None
  }

  function BoolField(ms: seq<Member>, key: string): Option<bool> {
    var v :- Field(ms, key);
    if v.JBool? then Some(v.b) else None
  }

  /** An optional number: `Some(None)` when the key is missing or `null`, `None` when it holds something else. */
  function OptNumField(ms: seq<Member>, key: string): Option<Option<int>> {
    match Field(ms, key)
    case None => Some(None)
    case Some(v) => if v.JNull? then Some(None) else if v.JNum? then Some(Some(v.n)) else None
  }

  // ---------------------------------------------------------------------------
  // Enumerations as their string literals

  function CategoryName(c: Category): string {
    match c
    case Quants => "quants"
    case Verbal => "verbal"
  }

  function CategoryOf(s: string): (r: Option<Category>)
    ensures r.Some? ==> CategoryName(r.value) == s
  {
    if s == "quants" then Some(Quants) else if s == "verbal" then Some(Verbal) else None
  }

  function ExamName(e: ExamType): string {
    match e
    case Indore => "INDORE"
    case Rohtak => "ROHTAK"
    case Jipmat => "JIPMAT"
  }

  function ExamOf(s: string): (r: Option<ExamType>)
    ensures r.Some? ==> ExamName(r.value) == s
  {
    if s == "INDORE" then Some(Indore)
    else if s == "ROHTAK" then Some(Rohtak)
    else if s == "JIPMAT" then Some(Jipmat)
    else None
  }

  function VocabCategoryName(c: VocabCategory): string {
    match c
    case Idioms => "idioms"
    case Phrasal => "phrasal"
    case Daily => "daily"
  }

  function VocabCategoryOf(s: string): (r: Option<VocabCategory>)
    ensures r.Some? ==> VocabCategoryName(r.value) == s
  {
    if s == "idioms" then Some(Idioms)
    else if s == "phrasal" then Some(Phrasal)
    else if s == "daily" then Some(Daily)
    else None
  }

  // ---------------------------------------------------------------------------
  // Encoders and decoders

  function UserToJson(u: User): Json {
    JObj([Member("name", JStr(u.name)), Member("createdAt", JNum(u.createdAt))])
  }

  /** `null` decodes to no user, as `getUser` returns it. */
  function UserFromJson(j: Json): Option<Option<User>> {
    if j.JNull? then Some(None)
    else if !j.JObj? then None
    else
      var name :- StrField(j.members, "name");
      var at :- NumField(j.members, "createdAt");
      Some(Some(User(name, at)))
  }

  function ProgressToJson(p: ProgressItem): Json {
    JObj([Member("id", JStr(p.id)), Member("label", JStr(p.topic)),
          Member("completed", JBool(p.completed)), Member("category", JStr(CategoryName(p.category)))])
  }

  function ProgressFromJson(j: Json): Option<ProgressItem> {
    if !j.JObj? then None
    else
      var id :- StrField(j.members, "id");
      var topic :- StrField(j.members, "label");
      var done :- BoolField(j.members, "completed");
      var name :- StrField(j.members, "category");
      var c :- CategoryOf(name);
      Some(ProgressItem(id, topic, done, c))
  }

  /** A section mark, `null` when the exam has no such section. */
  function OptNum(x: Option<int>): Json {
    if x.Some? then JNum(x.value) else JNull
  }

  function BreakdownToJson(b: Breakdown): Json {
    JObj([Member("va", JNum(b.va)), Member("sa", OptNum(b.sa)), Member("mcq", OptNum(b.mcq)),
          Member("qa", OptNum(b.qa)), Member("lr", OptNum(b.lr))])
  }

  function BreakdownFromJson(j: Json): Option<Breakdown> {
    if !j.JObj? then None
    else
      var va :- NumField(j.members, "va");
      var sa :- OptNumField(j.members, "sa");
      var mcq :- OptNumField(j.members, "mcq");
      var qa :- OptNumField(j.members, "qa");
      var lr :- OptNumField(j.members, "lr");
      Some(Breakdown(va, sa, mcq, qa, lr))
  }

  function MockScoreToJson(m: MockScore): Json {
    JObj([Member("id", JStr(m.id)), Member("mockName", JStr(m.mockName)),
          Member("examType", JStr(ExamName(m.examType))), Member("date", JNum(m.date)),
          Member("breakdown", BreakdownToJson(m.breakdown)), Member("totalScore", JNum(m.totalScore))])
  }

  function MockScoreFromJson(j: Json): Option<MockScore> {
    if !j.JObj? then None
    else
      var id :- StrField(j.members, "id");
      var name :- StrField(j.members, "mockName");
      var examName :- StrField(j.members, "examType");
      var exam :- ExamOf(examName);
      var date :- NumField(j.members, "date");
      var bj :- Field(j.members, "breakdown");
      var b :- BreakdownFromJson(bj);
      var total :- NumField(j.members, "totalScore");
      Some(MockScore(id, name, exam, date, b, total))
  }

  function GoalToJson(g: DailyGoal): Json {
    JObj([Member("id", JStr(g.id)), Member("text", JStr(g.text)),
          Member("completed", JBool(g.completed)), Member("createdAt", JNum(g.createdAt))])
  }

  function GoalFromJson(j: Json): Option<DailyGoal> {
    if !j.JObj? then None
    else
      var id :- StrField(j.members, "id");
      var text :- StrField(j.members, "text");
      var done :- BoolField(j.members, "completed");
      var at :- NumField(j.members, "createdAt");
      Some(DailyGoal(id, text, done, at))
  }

  function LogToJson(l: DailyLog): Json {
    JObj([Member("id", JStr(l.id)), Member("content", JStr(l.content)), Member("date", JNum(l.date)),
          Member("studyHours", JNum(l.studyHours)), Member("studyMinutes", JNum(l.studyMinutes))])
  }

  function LogFromJson(j: Json): Option<DailyLog> {
    if !j.JObj? then None
    else
      var id :- StrField(j.members, "id");
      var content :- StrField(j.members, "content");
      var date :- NumField(j.members, "date");
      var h :- NumField(j.members, "studyHours");
      var m :- NumField(j.members, "studyMinutes");
      Some(DailyLog(id, content, date, h, m))
  }

  function VocabToJson(v: UserVocabItem): Json {
    JObj([Member("id", JStr(v.id)), Member("term", JStr(v.term)), Member("meaning", JStr(v.meaning)),
          Member("example", JStr(v.example)), Member("origin", JStr(v.origin)),
          Member("category", JStr(VocabCategoryName(v.category))), Member("createdAt", JNum(v.createdAt))])
  }

  function VocabFromJson(j: Json): Option<UserVocabItem> {
    if !j.JObj? then None
    else
      var id :- StrField(j.members, "id");
      var term :- StrField(j.members, "term");
      var meaning :- StrField(j.members, "meaning");
      var example :- StrField(j.members, "example");
      var origin :- StrField(j.members, "origin");
      var name :- StrField(j.members, "category");
      var c :- VocabCategoryOf(name);
      var at :- NumField(j.members, "createdAt");
      Some(UserVocabItem(id, term, meaning, example, origin, c, at))
  }

  // ---------------------------------------------------------------------------
  // Lists

  function MapToJson<T>(xs: seq<T>, enc: T -> Json): (r: seq<Json>)
    ensures |r| == |xs|
  {
    if xs == [] then [] else [enc(xs[0])] + MapToJson(xs[1..], enc)
  }

  /** Every element decodes, or the whole list is rejected. */
  function DecodeAll<T>(js: seq<Json>, dec: Json -> Option<T>): (r: Option<seq<T>>)
    ensures r.Some? ==> |r.value| == |js|
  {
    if js == [] then Some([])
    else
      var x :- dec(js[0]);
      var rest :- DecodeAll(js[1..], dec);
      Some([x] + rest)
  }

  function ListToJson<T>(xs: seq<T>, enc: T -> Json): Json {
    JArr(MapToJson(xs, enc))
  }

  /** A stored list: anything but an array of decodable elements is mistyped. */
  function ListFromJson<T>(j: Json, dec: Json -> Option<T>): Option<seq<T>> {
    if j.JArr? then DecodeAll(j.items, dec) else None
  }

  /** A decoder that undoes an encoder on elements undoes it on lists. */
  lemma {:induction false} ListRoundTrip<T>(xs: seq<T>, enc: T -> Json, dec: Json -> Option<T>)
    requires forall x :: dec(enc(x)) == Some(x)
    ensures ListFromJson(ListToJson(xs, enc), dec) == Some(xs)
  {
    MapRoundTrip(xs, enc, dec);
  }

  lemma {:induction false} MapRoundTrip<T>(xs: seq<T>, enc: T -> Json, dec: Json -> Option<T>)
    requires forall x :: dec(enc(x)) == Some(x)
    ensures DecodeAll(MapToJson(xs, enc), dec) == Some(xs)
  {
    if xs != [] {
      var js := MapToJson(xs, enc);
      assert js[0] == enc(xs[0]) && js[1..] == MapToJson(xs[1..], enc);
      MapRoundTrip(xs[1..], enc, dec);
      assert [xs[0]] + xs[1..] == xs;
    }
  }

  // ---------------------------------------------------------------------------
  // Round trips of the entities

  /** No two members share a key, as in every object the encoders build. */
  predicate KeysDistinct(ms: seq<Member>) {
    forall i, j :: 0 <= i < j < |ms| ==> ms[i].key != ms[j].key
  }

  /** In an object with distinct keys every member is found by its key. */
  lemma {:induction false} FieldsOf(ms: seq<Member>)
    requires KeysDistinct(ms)
    ensures forall i :: 0 <= i < |ms| ==> Field(ms, ms[i].key) == Some(ms[i].value)
  {
    if ms != [] {
      FieldsOf(ms[1..]);
      forall i | 0 < i < |ms| ensures Field(ms, ms[i].key) == Some(ms[i].value) {
        assert ms[1..][i - 1] == ms[i];
      }
    }
  }

  /** A run of members none of which is named `key` has no `key`. */
  lemma {:induction false} NoField(ms: seq<Member>, key: string)
    requires forall i :: 0 <= i < |ms| ==> ms[i].key != key
    ensures Field(ms, key) == None
  {
    if ms != [] {
      NoField(ms[1..], key);
    }
  }

  lemma UserRoundTrip(u: User)
    ensures UserFromJson(UserToJson(u)) == Some(Some(u))
  {
    FieldsOf(UserToJson(u).members);
  }

  lemma ProgressRoundTrip(p: ProgressItem)
    ensures ProgressFromJson(ProgressToJson(p)) == Some(p)
  {
    var ms := ProgressToJson(p).members;
    FieldsOf(ms);
    assert Field(ms, ms[0].key) == Some(ms[0].value);
    assert Field(ms, ms[1].key) == Some(ms[1].value);
    assert Field(ms, ms[2].key) == Some(ms[2].value);
    assert Field(ms, ms[3].key) == Some(ms[3].value);
    assert CategoryOf(CategoryName(p.category)) == Some(p.category);
  }

  /** A section written by `OptNum` reads back as written. */
  lemma OptNumOf(ms: seq<Member>, key: string, x: Option<int>)
    requires Field(ms, key) == Some(OptNum(x))
    ensures OptNumField(ms, key) == Some(x)
  {
  }

  lemma BreakdownRoundTrip(b: Breakdown)
    ensures BreakdownFromJson(BreakdownToJson(b)) == Some(b)
  {
    var ms := BreakdownToJson(b).members;
    FieldsOf(ms);
    assert NumField(ms, "va") == Some(b.va) by {
      assert Field(ms, ms[0].key) == Some(ms[0].value);
    }
    OptNumOf(ms, "sa", b.sa) by {
      assert Field(ms, ms[1].key) == Some(ms[1].value);
    }
    OptNumOf(ms, "mcq", b.mcq) by {
      assert Field(ms, ms[2].key) == Some(ms[2].value);
    }
    OptNumOf(ms, "qa", b.qa) by {
      assert Field(ms, ms[3].key) == Some(ms[3].value);
    }
    OptNumOf(ms, "lr", b.lr) by {
      assert Field(ms, ms[4].key) == Some(ms[4].value);
    }
  }

  /** An object whose members read as the fields of `m` decodes to `m`. */
  lemma MockScoreOfFields(ms: seq<Member>, m: MockScore)
    requires StrField(ms, "id") == Some(m.id) && StrField(ms, "mockName") == Some(m.mockName)
    requires StrField(ms, "examType") == Some(ExamName(m.examType)) && NumField(ms, "date") == Some(m.date)
    requires Field(ms, "breakdown").Some? && BreakdownFromJson(Field(ms, "breakdown").value) == Some(m.breakdown)
    requires NumField(ms, "totalScore") == Some(m.totalScore)
    ensures MockScoreFromJson(JObj(ms)) == Some(m)
  {
    ExamRoundTrip(m.examType);
  }

  /** Each exam name reads back as its exam. */
  lemma ExamRoundTrip(e: ExamType)
    ensures ExamOf(ExamName(e)) == Some(e)
  {
  }

  lemma MockScoreRoundTrip(m: MockScore)
    ensures MockScoreFromJson(MockScoreToJson(m)) == Some(m)
  {
    var ms := MockScoreToJson(m).members;
    FieldsOf(ms);
    assert Field(ms, ms[0].key) == Some(ms[0].value);
    assert Field(ms, ms[1].key) == Some(ms[1].value);
    assert Field(ms, ms[2].key) == Some(ms[2].value);
    assert Field(ms, ms[3].key) == Some(ms[3].value);
    assert Field(ms, ms[4].key) == Some(ms[4].value);
    assert Field(ms, ms[5].key) == Some(ms[5].value);
    BreakdownRoundTrip(m.breakdown);
    MockScoreOfFields(ms, m);
  }

  lemma GoalRoundTrip(g: DailyGoal)
    ensures GoalFromJson(GoalToJson(g)) == Some(g)
  {
    var ms := GoalToJson(g).members;
    FieldsOf(ms);
    assert Field(ms, ms[0].key) == Some(ms[0].value);
    assert Field(ms, ms[1].key) == Some(ms[1].value);
    assert Field(ms, ms[2].key) == Some(ms[2].value);
    assert Field(ms, ms[3].key) == Some(ms[3].value);
  }

  lemma LogRoundTrip(l: DailyLog)
    ensures LogFromJson(LogToJson(l)) == Some(l)
  {
    var ms := LogToJson(l).members;
    FieldsOf(ms);
    assert Field(ms, ms[0].key) == Some(ms[0].value);
    assert Field(ms, ms[1].key) == Some(ms[1].value);
    assert Field(ms, ms[2].key) == Some(ms[2].value);
    assert Field(ms, ms[3].key) == Some(ms[3].value);
    assert Field(ms, ms[4].key) == Some(ms[4].value);
  }

  /** Each vocabulary category name reads back as its category. */
  lemma VocabCategoryRoundTrip(c: VocabCategory)
    ensures VocabCategoryOf(VocabCategoryName(c)) == Some(c)
  {
  }

  /** An object whose members read as the fields of `v` decodes to `v`. */
  lemma VocabOfFields(ms: seq<Member>, v: UserVocabItem)
    requires StrField(ms, "id") == Some(v.id) && StrField(ms, "term") == Some(v.term)
    requires StrField(ms, "meaning") == Some(v.meaning) && StrField(ms, "example") == Some(v.example)
    requires StrField(ms, "origin") == Some(v.origin)
    requires StrField(ms, "category") == Some(VocabCategoryName(v.category))
    requires NumField(ms, "createdAt") == Some(v.createdAt)
    ensures VocabFromJson(JObj(ms)) == Some(v)
  {
    VocabCategoryRoundTrip(v.category);
  }

  lemma VocabRoundTrip(v: UserVocabItem)
    ensures VocabFromJson(VocabToJson(v)) == Some(v)
  {
    var ms := VocabToJson(v).members;
    FieldsOf(ms);
    assert Field(ms, ms[0].key) == Some(ms[0].value);
    assert Field(ms, ms[1].key) == Some(ms[1].value);
    assert Field(ms, ms[2].key) == Some(ms[2].value);
    assert Field(ms, ms[3].key) == Some(ms[3].value);
    assert Field(ms, ms[4].key) == Some(ms[4].value);
    assert Field(ms, ms[5].key) == Some(ms[5].value);
    assert Field(ms, ms[6].key) == Some(ms[6].value);
    VocabOfFields(ms, v);
  }
}
