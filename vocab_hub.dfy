/**
 * The vocabulary hub: three tabs (idioms, phrasal verbs, words of the day),
 * each showing its built-in entries followed by the user's own words of that
 * category, a search box that filters the tab, a form that adds a word, a
 * delete button on the user's words, and a dictionary lookup that fills the
 * form's meaning and example from the first definitions a response offers.
 */
module Vocab {
  import opened Wrappers
  import opened Text
  import opened Lists
  import opened Records
  import opened Storage

  /**
   * One card of a tab: a built-in entry (no id, `isUserAdded` false) or one of
   * the user's words (its id, `isUserAdded` true). A missing example or origin
   * is the empty string, which the card does not show.
   */
  datatype VocabEntry = VocabEntry(id: string, term: string, meaning: string, example: string, origin: string, isUserAdded: bool)

  // ---------------------------------------------------------------------------
  // Built-in entries

  /** A built-in entry of a tab: term, meaning, example and origin (empty when absent). */
  datatype BuiltIn = BuiltIn(term: string, meaning: string, example: string, origin: string)

  /** The fifteen built-in idioms. */
  function DefaultIdioms(): seq<BuiltIn> {
    [
      BuiltIn("Bite the bullet", "To endure a painful experience bravely",
       "She had to bite the bullet and tell her parents about the accident.",
       ""),
      BuiltIn("Break the ice", "To make people feel more comfortable in a social situation",
       "He told a joke to break the ice at the meeting.",
       ""),
      BuiltIn("Burning the midnight oil", "Working late into the night",
       "She's been burning the midnight oil to finish her project.",
       ""),
      BuiltIn("Cost an arm and a leg", "Very expensive",
       "That designer bag cost an arm and a leg.",
       ""),
      BuiltIn("Hit the nail on the head", "To be exactly right about something",
       "You hit the nail on the head with that analysis.",
       ""),
      BuiltIn("Once in a blue moon", "Very rarely",
       "He visits his hometown once in a blue moon.",
       ""),
      BuiltIn("Piece of cake", "Something very easy",
       "The exam was a piece of cake for her.",
       ""),
      BuiltIn("Spill the beans", "To reveal a secret",
       "Don't spill the beans about the surprise party.",
       ""),
      BuiltIn("The ball is in your court", "It's your turn to take action",
       "I've made my offer, now the ball is in your court.",
       ""),
      BuiltIn("Under the weather", "Feeling ill",
       "I'm feeling a bit under the weather today.",
       ""),
      BuiltIn("Beat around the bush", "To avoid the main topic",
       "Stop beating around the bush and get to the point.",
       ""),
      BuiltIn("Better late than never", "Doing something late is better than not doing it at all",
       "He finally arrived; better late than never.",
       ""),
      BuiltIn("Call it a day", "To stop working on something",
       "It's late, let's call it a day.",
       ""),
      BuiltIn("Cutting corners", "Doing something poorly to save time or money",
       "They cut corners on the construction, which led to safety issues.",
       ""),
      BuiltIn("Get out of hand", "To get out of control",
       "The party got out of hand quickly.",
       "")
    ]
  }

  /** The fifteen built-in phrasal verbs. */
  function DefaultPhrasalVerbs(): seq<BuiltIn> {
    [
      BuiltIn("Break down", "1. Stop functioning 2. Analyze in detail 3. Become emotional",
       "The car broke down on the highway.",
       ""),
      BuiltIn("Bring up", "1. Raise (a child) 2. Mention a topic",
       "Don't bring up politics at dinner.",
       ""),
      BuiltIn("Call off", "To cancel something",
       "They had to call off the match due to rain.",
       ""),
      BuiltIn("Carry on", "To continue doing something",
       "Please carry on with your work.",
       ""),
      BuiltIn("Come across", "To find by chance or give an impression",
       "I came across an old photo album.",
       ""),
      BuiltIn("Figure out", "To understand or solve something",
       "I need to figure out this math problem.",
       ""),
      BuiltIn("Give up", "To stop trying or quit",
       "Never give up on your dreams.",
       ""),
      BuiltIn("Look forward to", "To anticipate with pleasure",
       "I'm looking forward to the vacation.",
       ""),
      BuiltIn("Put off", "To postpone",
       "Don't put off your studies until tomorrow.",
       ""),
      BuiltIn("Turn down", "To reject or refuse",
       "She turned down the job offer.",
       ""),
      BuiltIn("Back up", "To support someone or something",
       "My team backed me up during the presentation.",
       ""),
      BuiltIn("Blow up", "To explode or become suddenly angry",
       "The boss blew up when he saw the sales report.",
       ""),
      BuiltIn("Check out", "To investigate or look at something",
       "You should check out that new restaurant.",
       ""),
      BuiltIn("Draw up", "To prepare a document or plan",
       "We need to draw up a contract.",
       ""),
      BuiltIn("Get along", "To have a good relationship",
       "I get along well with my roommates.",
       "")
    ]
  }

  /** The ten built-in words of the day, with their origins. */
  function DefaultDailyVocab(): seq<BuiltIn> {
    [
      BuiltIn("Ephemeral", "Lasting for a very short time",
       "The ephemeral beauty of cherry blossoms attracts tourists every spring.",
       "Greek: ephemeros (lasting only a day)"),
      BuiltIn("Ubiquitous", "Present everywhere",
       "Smartphones have become ubiquitous in modern society.",
       "Latin: ubique (everywhere)"),
      BuiltIn("Pragmatic", "Dealing with things sensibly and realistically",
       "We need a pragmatic approach to solve this problem.",
       "Greek: pragma (deed, act)"),
      BuiltIn("Eloquent", "Fluent and persuasive in speaking or writing",
       "The leader gave an eloquent speech that moved everyone.",
       "Latin: eloquens (speaking out)"),
      BuiltIn("Meticulous", "Showing great attention to detail",
       "The artist was meticulous in her brushwork.",
       "Latin: meticulosus (fearful)"),
      BuiltIn("Resilient", "Able to recover quickly from difficulties",
       "Children are remarkably resilient in adapting to change.",
       "Latin: resilire (to spring back)"),
      BuiltIn("Ambiguous", "Open to more than one interpretation",
       "The contract language was ambiguous and led to disputes.",
       "Latin: ambiguus (doubtful)"),
      BuiltIn("Benevolent", "Well-meaning and kindly",
       "The benevolent donor funded the entire scholarship program.",
       "Latin: bene (well) + volens (wishing)"),
      BuiltIn("Candid", "Truthful and straightforward",
       "I appreciate your candid feedback on my presentation.",
       "Latin: candidus (white, pure)"),
      BuiltIn("Diligent", "Having or showing care in work",
       "The diligent student always completed assignments on time.",
       "Latin: diligere (to value highly)")
    ]
  }

  /** The built-in list of each tab. */
  function BuiltIns(c: VocabCategory): seq<BuiltIn> {
    match c
    case Idioms => DefaultIdioms()
    case Phrasal => DefaultPhrasalVerbs()
    case Daily => DefaultDailyVocab()
  }

  /** Built-in entries as cards: no id, not added by the user. */
  function BuiltInCards(rows: seq<BuiltIn>): (r: seq<VocabEntry>)
    ensures |r| == |rows|
    ensures forall i :: 0 <= i < |rows| ==>
      r[i] == VocabEntry("", rows[i].term, rows[i].meaning, rows[i].example, rows[i].origin, false)
  {
    seq(|rows|, i requires 0 <= i < |rows| =>
      VocabEntry("", rows[i].term, rows[i].meaning, rows[i].example, rows[i].origin, false))
  }

  // ---------------------------------------------------------------------------
  // Tabs

  /** `userVocab.filter(i => i.category === c)`. */
  function OfVocabCategory(user: seq<UserVocabItem>, c: VocabCategory): (r: seq<UserVocabItem>)
    ensures IsSubsequence(r, user)
    ensures forall u :: u in r <==> u in user && u.category == c
    ensures forall u :: multiset(r)[u] == if u.category == c then multiset(user)[u] else 0
  {
    if user == [] then []
    else
      assert user == [user[0]] + user[1..];
      if user[0].category == c then [user[0]] + OfVocabCategory(user[1..], c)
      else OfVocabCategory(user[1..], c)
  }

  /** A user's word as a card: `{ ...i, isUserAdded: true }`. */
  function UserCard(u: UserVocabItem): VocabEntry {
    VocabEntry(u.id, u.term, u.meaning, u.example, u.origin, true)
  }

  /** `.map(i => ({ ...i, isUserAdded: true }))`. */
  function Flagged(us: seq<UserVocabItem>): (r: seq<VocabEntry>)
    ensures |r| == |us|
    ensures forall i :: 0 <= i < |us| ==> r[i] == UserCard(us[i])
  {
    if us == [] then [] else [UserCard(us[0])] + Flagged(us[1..])
  }

  /**
   * The cards of a tab, before the search filter: the tab's built-in entries
   * `rows` first, then the user's words of the tab's category `c`.
   */
  function Tab(rows: seq<BuiltIn>, user: seq<UserVocabItem>, c: VocabCategory): seq<VocabEntry> {
    BuiltInCards(rows) + Flagged(OfVocabCategory(user, c))
  }

  /** `item.isUserAdded && onDelete && item.id`: the card shows a delete button (every tab passes `onDelete`). */
  predicate CanDelete(x: VocabEntry) {
    x.isUserAdded && x.id != ""
  }

  /** A tab opens with its built-in cards, and none of them can be deleted. */
  lemma TabBuiltInPrefix(rows: seq<BuiltIn>, user: seq<UserVocabItem>, c: VocabCategory)
    ensures Tab(rows, user, c)[..|rows|] == BuiltInCards(rows)
    ensures forall k :: 0 <= k < |rows| ==> !CanDelete(Tab(rows, user, c)[k])
  {
    var t := Tab(rows, user, c);
    assert t[..|rows|] == BuiltInCards(rows);
    forall k | 0 <= k < |rows|
      ensures !CanDelete(t[k])
    {
      assert t[k] == BuiltInCards(rows)[k];
    }
  }

  /** A card of a tab is a user's word of the tab's category exactly when it is marked as added by the user. */
  lemma TabUserCards(rows: seq<BuiltIn>, user: seq<UserVocabItem>, c: VocabCategory, x: VocabEntry)
    ensures x in Tab(rows, user, c) && x.isUserAdded <==>
      exists u :: u in user && u.category == c && UserCard(u) == x
  {
    if x in Tab(rows, user, c) && x.isUserAdded {
      TabUserCardFrom(rows, user, c, x);
    }
    if u :| u in user && u.category == c && UserCard(u) == x {
      TabUserCardIn(rows, user, c, u);
    }
  }

  lemma TabUserCardFrom(rows: seq<BuiltIn>, user: seq<UserVocabItem>, c: VocabCategory, x: VocabEntry)
    requires x in Tab(rows, user, c) && x.isUserAdded
    ensures exists u :: u in user && u.category == c && UserCard(u) == x
  {
    var shown := OfVocabCategory(user, c);
    assert x !in BuiltInCards(rows);
    var k :| 0 <= k < |Flagged(shown)| && Flagged(shown)[k] == x;
    assert shown[k] in user;
  }

  lemma TabUserCardIn(rows: seq<BuiltIn>, user: seq<UserVocabItem>, c: VocabCategory, u: UserVocabItem)
    requires u in user && u.category == c
    ensures UserCard(u) in Tab(rows, user, c)
  {
    var shown := OfVocabCategory(user, c);
    var k :| 0 <= k < |shown| && shown[k] == u;
    assert Flagged(shown)[k] == UserCard(u);
    assert Tab(rows, user, c)[|rows| + k] == UserCard(u);
  }

  /** A card not added by the user is in a tab exactly when it is one of the tab's built-in cards. */
  lemma BuiltInSide(rows: seq<BuiltIn>, user: seq<UserVocabItem>, c: VocabCategory, x: VocabEntry)
    requires !x.isUserAdded
    ensures x in Tab(rows, user, c) <==> x in BuiltInCards(rows)
  {
    var f := Flagged(OfVocabCategory(user, c));
    assert forall y :: y in f ==> y.isUserAdded;
  }

  // ---------------------------------------------------------------------------
  // Search

  /** `item.term.toLowerCase().includes(q.toLowerCase()) || item.meaning.toLowerCase().includes(q.toLowerCase())`. */
  predicate Matches(x: VocabEntry, q: string) {
    Contains(Lower(x.term), Lower(q)) || Contains(Lower(x.meaning), Lower(q))
  }

  /** The cards of a tab that the search query keeps, in tab order. */
  function Search(items: seq<VocabEntry>, q: string): (r: seq<VocabEntry>)
    ensures IsSubsequence(r, items)
    ensures forall x :: x in r <==> x in items && Matches(x, q)
    ensures forall x :: multiset(r)[x] == if Matches(x, q) then multiset(items)[x] else 0
  {
    if items == [] then []
    else
      assert items == [items[0]] + items[1..];
      if Matches(items[0], q) then [items[0]] + Search(items[1..], q)
      else Search(items[1..], q)
  }

  /** An empty search box shows the whole tab. */
  lemma {:induction false} SearchEmpty(items: seq<VocabEntry>)
    ensures Search(items, "") == items
  {
    if items != [] {
      ContainsTrivial(Lower(items[0].term));
      SearchEmpty(items[1..]);
      assert [items[0]] + items[1..] == items;
    }
  }

  /** The search ignores the case of the query. */
  lemma {:induction false} SearchIgnoresCase(items: seq<VocabEntry>, q: string)
    ensures Search(items, Lower(q)) == Search(items, q)
  {
    LowerOfLower(q);
    if items != [] {
      SearchIgnoresCase(items[1..], q);
    }
  }

  // ---------------------------------------------------------------------------
  // Adding and deleting the user's words

  /** `userVocab.filter(i => i.id !== id)`. */
  function WithoutWord(user: seq<UserVocabItem>, id: string): (r: seq<UserVocabItem>)
    ensures IsSubsequence(r, user)
    ensures forall u :: u in r <==> u in user && u.id != id
    ensures forall u :: multiset(r)[u] == if u.id != id then multiset(user)[u] else 0
  {
    if user == [] then []
    else
      assert user == [user[0]] + user[1..];
      if user[0].id != id then [user[0]] + WithoutWord(user[1..], id)
      else WithoutWord(user[1..], id)
  }

  /** Deleting a word just added under a fresh id gives the list from before the addition. */
  lemma {:induction false} AddThenDelete(user: seq<UserVocabItem>, item: UserVocabItem)
    requires forall i :: 0 <= i < |user| ==> user[i].id != item.id
    ensures WithoutWord([item] + user, item.id) == user
    decreases |user|
  {
    assert ([item] + user)[1..] == user;
    WithoutAbsentWord(user, item.id);
  }

  /** Deleting an id no word carries changes nothing. */
  lemma {:induction false} WithoutAbsentWord(user: seq<UserVocabItem>, id: string)
    requires forall i :: 0 <= i < |user| ==> user[i].id != id
    ensures WithoutWord(user, id) == user
  {
    if user != [] {
      WithoutAbsentWord(user[1..], id);
      assert [user[0]] + user[1..] == user;
    }
  }

  /** After deleting `id`, a tab shows what it showed before except the user's cards carrying `id`. */
  lemma DeleteFromTab(rows: seq<BuiltIn>, user: seq<UserVocabItem>, id: string, c: VocabCategory, x: VocabEntry)
    ensures x in Tab(rows, WithoutWord(user, id), c) <==> x in Tab(rows, user, c) && !(x.isUserAdded && x.id == id)
  {
    var rest := WithoutWord(user, id);
    if x.isUserAdded {
      TabUserCards(rows, user, c, x);
      TabUserCards(rows, rest, c, x);
      if x in Tab(rows, rest, c) {
        var u :| u in rest && u.category == c && UserCard(u) == x;
        assert u in user;
      }
      if x in Tab(rows, user, c) && x.id != id {
        var u :| u in user && u.category == c && UserCard(u) == x;
        assert u in rest;
      }
    } else {
      BuiltInSide(rows, user, c, x);
      BuiltInSide(rows, rest, c, x);
    }
  }

  // ---------------------------------------------------------------------------
  // Dictionary lookup

  /** One definition of a dictionary response; an absent example is the empty string. */
  datatype Definition = Definition(definition: string, example: string)

  /** One meaning (part of speech) of an entry, with its definitions in order. */
  datatype MeaningGroup = MeaningGroup(definitions: seq<Definition>)

  /** One entry of the response array. */
  datatype DictEntry = DictEntry(meanings: seq<MeaningGroup>)

  /** Which text of a definition the lookup is after. */
  datatype Part = DefinitionText | ExampleText

  function PartOf(d: Definition, p: Part): string {
    match p
    case DefinitionText => d.definition
    case ExampleText => d.example
  }

  /** `a` if it is set, otherwise `b`. */
  function FirstOf(a: string, b: string): string {
    if a != "" then a else b
  }

  /** The first non-empty text of kind `p` among `defs`, or empty if there is none. */
  function FirstIn(defs: seq<Definition>, p: Part): string {
    if defs == [] then "" else FirstOf(PartOf(defs[0], p), FirstIn(defs[1..], p))
  }

  /** `FirstIn` is empty exactly when every text is, and otherwise the text at the first non-empty position. */
  lemma {:induction false} FirstInMeans(defs: seq<Definition>, p: Part)
    ensures FirstIn(defs, p) == "" <==> forall i :: 0 <= i < |defs| ==> PartOf(defs[i], p) == ""
    ensures FirstIn(defs, p) != "" ==>
      (exists i :: 0 <= i < |defs| && PartOf(defs[i], p) == FirstIn(defs, p) &&
         (forall j :: 0 <= j < i ==> PartOf(defs[j], p) == ""))
  {
    if defs != [] {
      var r := FirstIn(defs, p);
      FirstInMeans(defs[1..], p);
      if PartOf(defs[0], p) != "" {
        assert PartOf(defs[0], p) == r;
      } else if r != "" {
        var i :| 0 <= i < |defs[1..]| && PartOf(defs[1..][i], p) == r &&
          (forall j :: 0 <= j < i ==> PartOf(defs[1..][j], p) == "");
        assert PartOf(defs[i + 1], p) == r;
        forall j | 0 <= j < i + 1
          ensures PartOf(defs[j], p) == ""
        {
          if j > 0 {
            assert defs[j] == defs[1..][j - 1];
          }
        }
      } else {
        forall i | 0 <= i < |defs|
          ensures PartOf(defs[i], p) == ""
        {
          if i > 0 {
            assert defs[i] == defs[1..][i - 1];
          }
        }
      }
    }
  }

  function FirstInGroups(gs: seq<MeaningGroup>, p: Part): string {
    if gs == [] then "" else FirstOf(FirstIn(gs[0].definitions, p), FirstInGroups(gs[1..], p))
  }

  function FirstInEntries(es: seq<DictEntry>, p: Part): string {
    if es == [] then "" else FirstOf(FirstInGroups(es[0].meanings, p), FirstInEntries(es[1..], p))
  }

  /** Every definition of a response, entry by entry and meaning by meaning. */
  function GroupDefinitions(gs: seq<MeaningGroup>): seq<Definition> {
    if gs == [] then [] else gs[0].definitions + GroupDefinitions(gs[1..])
  }

  function AllDefinitions(es: seq<DictEntry>): seq<Definition> {
    if es == [] then [] else GroupDefinitions(es[0].meanings) + AllDefinitions(es[1..])
  }

  /** The first text of two lists joined is the first of the first list, else the first of the second. */
  lemma {:induction false} FirstInJoin(a: seq<Definition>, b: seq<Definition>, p: Part)
    ensures FirstIn(a + b, p) == FirstOf(FirstIn(a, p), FirstIn(b, p))
  {
    if a == [] {
      assert a + b == b;
    } else {
      FirstInJoin(a[1..], b, p);
      assert (a + b)[1..] == a[1..] + b;
    }
  }

  lemma {:induction false} FirstInGroupsFlat(gs: seq<MeaningGroup>, p: Part)
    ensures FirstInGroups(gs, p) == FirstIn(GroupDefinitions(gs), p)
  {
    if gs != [] {
      FirstInGroupsFlat(gs[1..], p);
      FirstInJoin(gs[0].definitions, GroupDefinitions(gs[1..]), p);
    }
  }

  /**
   * What the nested search finds is the first non-empty definition (and
   * example) of the whole response, reading entries, meanings and
   * definitions in order.
   */
  lemma {:induction false} FirstInEntriesFlat(es: seq<DictEntry>, p: Part)
    ensures FirstInEntries(es, p) == FirstIn(AllDefinitions(es), p)
  {
    if es != [] {
      FirstInEntriesFlat(es[1..], p);
      FirstInGroupsFlat(es[0].meanings, p);
      FirstInJoin(GroupDefinitions(es[0].meanings), AllDefinitions(es[1..]), p);
    }
  }

  /**
   * The three nested loops of `performLookup`, each left as soon as both a
   * meaning and an example are found.
   */
  method FindFirst(data: seq<DictEntry>) returns (meaning: string, example: string)
    ensures meaning == FirstInEntries(data, DefinitionText)
    ensures example == FirstInEntries(data, ExampleText)
  {
    meaning, example := "", "";
    var i := 0;
    while i < |data| && !(meaning != "" && example != "")
      invariant 0 <= i <= |data|
      invariant FirstOf(meaning, FirstInEntries(data[i..], DefinitionText)) == FirstInEntries(data, DefinitionText)
      invariant FirstOf(example, FirstInEntries(data[i..], ExampleText)) == FirstInEntries(data, ExampleText)
    {
      assert data[i..][1..] == data[i + 1..];
      var gs := data[i].meanings;
      var j := 0;
      while j < |gs| && !(meaning != "" && example != "")
        invariant 0 <= j <= |gs|
        invariant FirstOf(meaning, FirstOf(FirstInGroups(gs[j..], DefinitionText), FirstInEntries(data[i + 1..], DefinitionText)))
          == FirstInEntries(data, DefinitionText)
        invariant FirstOf(example, FirstOf(FirstInGroups(gs[j..], ExampleText), FirstInEntries(data[i + 1..], ExampleText)))
          == FirstInEntries(data, ExampleText)
      {
        assert gs[j..][1..] == gs[j + 1..];
        var defs := gs[j].definitions;
        var k := 0;
        while k < |defs| && !(meaning != "" && example != "")
          invariant 0 <= k <= |defs|
          invariant FirstOf(meaning, FirstOf(FirstIn(defs[k..], DefinitionText),
            FirstOf(FirstInGroups(gs[j + 1..], DefinitionText), FirstInEntries(data[i + 1..], DefinitionText))))
            == FirstInEntries(data, DefinitionText)
          invariant FirstOf(example, FirstOf(FirstIn(defs[k..], ExampleText),
            FirstOf(FirstInGroups(gs[j + 1..], ExampleText), FirstInEntries(data[i + 1..], ExampleText))))
            == FirstInEntries(data, ExampleText)
        {
          assert defs[k..][1..] == defs[k + 1..];
          if meaning == "" {
            meaning := defs[k].definition;
          }
          if example == "" && defs[k].example != "" {
            example := defs[k].example;
          }
          k := k + 1;
        }
        j := j + 1;
      }
      i := i + 1;
    }
  }

  /**
   * The term sent to the dictionary: none for a term shorter than two
   * characters; otherwise trimmed, lower-cased, and without a leading "to ".
   */
  function CleanTerm(term: string): (r: Option<string>)
    ensures r.Some? <==> |term| >= 2
    ensures r.Some? ==> |r.value| <= |term| && Lower(r.value) == r.value
    ensures r.Some? && StartsWith(Lower(Trim(term)), "to ") ==> "to " + r.value == Lower(Trim(term))
    ensures r.Some? && !StartsWith(Lower(Trim(term)), "to ") ==> r.value == Lower(Trim(term))
  {
    if |term| < 2 then None
    else
      var t := Lower(Trim(term));
      LowerOfLower(Trim(term));
      if StartsWith(t, "to ") then
        LowerOfLower(t[3..]);
        StartsWithSplit(t, "to ");
        Some(t[3..])
      else Some(t)
  }

  /** A padded, capitalised phrasal verb is looked up as its bare lower-case form. */
  lemma CleanTermExample()
    ensures CleanTerm(" To Go") == Some("go")
  {
    TrimExample();
    LowerExample();
    assert "to go"[..3] == "to ";
    assert "to go"[3..] == "go";
  }

  /** The trim step of the example. */
  lemma TrimExample()
    ensures Trim(" To Go") == "To Go"
  {
    var s := " To Go";
    var t := "To Go";
    assert s[1..] == t;
    assert !IsSpace(t[0]) && !IsSpace(t[4]);
    assert TrimStart(t) == t;
    assert TrimStart(s) == t;
    assert TrimEnd(t) == t;
  }

  /** The lower-casing step of the example. */
  lemma LowerExample()
    ensures Lower("To Go") == "to go"
  {
    var l := Lower("To Go");
    assert l[0] == LowerChar('T') == 't';
    assert l[3] == LowerChar('G') == 'g';
  }

  /** The debounced effect looks a term up only when it is longer than two characters and no meaning is filled in. */
  predicate ShouldAutoLookup(term: string, meaning: string, searching: bool) {
    |term| > 2 && meaning == "" && !searching
  }

  /** An automatic lookup always passes the length guard of `performLookup`. */
  lemma AutoLookupProceeds(term: string, meaning: string, searching: bool)
    requires ShouldAutoLookup(term, meaning, searching)
    ensures CleanTerm(term).Some?
  {
  }

  // ---------------------------------------------------------------------------
  // The component

  /** The add-word dialog's fields. */
  datatype WordForm = WordForm(term: string, meaning: string, example: string, origin: string, category: VocabCategory)

  /** The dialog's initial state: empty fields, category "daily". */
  function InitialForm(): WordForm {
    WordForm("", "", "", "", Daily)
  }

  /** The word the dialog adds. */
  function NewWord(f: WordForm, id: string, now: int): (u: UserVocabItem)
    ensures UserCard(u).term == f.term && UserCard(u).meaning == f.meaning && UserCard(u).id == id
    ensures u.category == f.category && CanDelete(UserCard(u)) == (id != "")
    ensures u.example == f.example && u.origin == f.origin && u.createdAt == now
  {
    UserVocabItem(id, f.term, f.meaning, f.example, f.origin, f.category, now)
  }

  /** `VocabHub`: the search box, the user's words, the dialog and the lookup flag. */
  class VocabHub {
    var searchQuery: string
    var userVocab: seq<UserVocabItem>
    var isOpen: bool
    var isSearching: bool
    var form: WordForm
    const store: RecordStore

    constructor (store: RecordStore)
      ensures searchQuery == "" && userVocab == [] && !isOpen && !isSearching && form == InitialForm()
      ensures this.store == store
    {
      searchQuery := "";
      userVocab := [];
      isOpen := false;
      isSearching := false;
      form := InitialForm();
      this.store := store;
    }

    /** The mount effect: `setUserVocab(getVocab())`. */
    method Mount() returns (failure: Option<StoreError>)
      modifies this
      ensures store.GetVocab().Success? ==> userVocab == store.GetVocab().value && failure == None
      ensures store.GetVocab().Failure? ==> userVocab == old(userVocab) && failure == Some(store.GetVocab().error)
      ensures searchQuery == old(searchQuery) && isOpen == old(isOpen) && isSearching == old(isSearching) && form == old(form)
    {
      var read := store.GetVocab();
      match read
      case Success(v) =>
        userVocab := v;
        failure := None;
      case Failure(e) =>
        failure := Some(e);
    }

    method SetSearchQuery(q: string)
      modifies this
      ensures searchQuery == q
      ensures userVocab == old(userVocab) && isOpen == old(isOpen) && isSearching == old(isSearching) && form == old(form)
    {
      searchQuery := q;
    }

    method SetOpen(open: bool)
      modifies this
      ensures isOpen == open
      ensures searchQuery == old(searchQuery) && userVocab == old(userVocab) && isSearching == old(isSearching) && form == old(form)
    {
      isOpen := open;
    }

    method EditForm(f: WordForm)
      modifies this
      ensures form == f
      ensures searchQuery == old(searchQuery) && userVocab == old(userVocab) && isOpen == old(isOpen) && isSearching == old(isSearching)
    {
      form := f;
    }

    /**
     * `performLookup(newTerm)`, given what the dictionary answered for the
     * cleaned term (`None` when the response is not ok or the request fails).
     * A found meaning replaces the form's meaning, and a found example its
     * example; nothing else changes, and the searching flag ends cleared.
     */
    method Lookup(response: Option<seq<DictEntry>>)
      modifies this
      ensures CleanTerm(old(form).term).None? ==> isSearching == old(isSearching) && form == old(form)
      ensures CleanTerm(old(form).term).Some? ==> !isSearching
      ensures var m := if response.Some? then FirstInEntries(response.value, DefinitionText) else "";
              var e := if response.Some? then FirstInEntries(response.value, ExampleText) else "";
              CleanTerm(old(form).term).Some? && m != "" ==>
                form == old(form).(meaning := m, example := FirstOf(e, old(form).example))
      ensures CleanTerm(old(form).term).Some? && (response.None? || FirstInEntries(response.value, DefinitionText) == "") ==>
        form == old(form)
      ensures searchQuery == old(searchQuery) && userVocab == old(userVocab) && isOpen == old(isOpen)
    {
      if CleanTerm(form.term).None? {
        return;
      }
      isSearching := true;
      if response.Some? {
        var m, e := FindFirst(response.value);
        if m != "" {
          form := form.(meaning := m);
          if e != "" {
            form := form.(example := e);
          }
        }
      }
      isSearching := false;
    }

    /**
     * `handleAddWord`: the new word goes first, the list is written back, the
     * dialog closes and the fields are cleared except the category. The term
     * and meaning inputs are required, so the form is never submitted empty.
     */
    method Add(id: string, now: int)
      requires form.term != "" && form.meaning != ""
      modifies this, store
      ensures userVocab == [NewWord(old(form), id, now)] + old(userVocab)
      ensures form == InitialForm().(category := old(form).category) && !isOpen
      ensures searchQuery == old(searchQuery) && isSearching == old(isSearching)
      ensures store.entries == old(store.entries)[VocabKey := Write(ListToJson(userVocab, VocabToJson))]
      ensures store.GetVocab() == Success(userVocab)
    {
      userVocab := [NewWord(form, id, now)] + userVocab;
      store.SetVocab(userVocab);
      isOpen := false;
      form := InitialForm().(category := form.category);
    }

    /** `handleDeleteUserWord`. */
    method Delete(id: string)
      modifies this, store
      ensures userVocab == WithoutWord(old(userVocab), id)
      ensures searchQuery == old(searchQuery) && isOpen == old(isOpen) && isSearching == old(isSearching) && form == old(form)
      ensures store.entries == old(store.entries)[VocabKey := Write(ListToJson(userVocab, VocabToJson))]
      ensures store.GetVocab() == Success(userVocab)
    {
      userVocab := WithoutWord(userVocab, id);
      store.SetVocab(userVocab);
    }

    /** The cards tab `c` shows under the current search. */
    function Shown(c: VocabCategory): seq<VocabEntry>
      reads this
    {
      Search(Tab(BuiltIns(c), userVocab, c), searchQuery)
    }
  }
}
