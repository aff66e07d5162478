/**
 * The text form of stored values. The application hands every record to
 * `JSON.stringify` before `localStorage.setItem` and reads it back with
 * `JSON.parse`. The model replaces that pair by a JSON-shaped value tree and a
 * self-delimiting text codec for it, and proves the property the application
 * relies on: parsing the text of a value gives the value back.
 */
module Json {
  import opened Wrappers
  import opened Text

  /** A JSON value (numbers are integers: the application stores only counts and scores). */
  datatype Json =
    | JNull
    | JBool(b: bool)
    | JNum(n: int)
    | JStr(s: string)
    | JArr(items: seq<Json>)
    | JObj(members: seq<Member>)

  /** One `"key": value` pair of an object, in insertion order. */
  datatype Member = Member(key: string, value: Json)

  // ---------------------------------------------------------------------------
  // Writing

  /** A string as its length, a colon and its characters. */
  function StrText(s: string): string {
    NatToDecimal(|s|) + ":" + s
  }

  /** The text of a value. */
  function Serialize(v: Json): string
    decreases v
  {
    match v
    case JNull => "n"
    case JBool(b) => if b then "t" else "f"
    case JNum(n) => (if n < 0 then "-" + NatToDecimal(-n) else "+" + NatToDecimal(n)) + ";"
    case JStr(s) => "\"" + StrText(s)
    case JArr(items) => "[" + SerializeItems(items) + "]"
    case JObj(ms) => "{" + SerializeMembers(ms) + "}"
  }

  function SerializeItems(items: seq<Json>): string
    decreases items
  {
    if items == [] then "" else Serialize(items[0]) + SerializeItems(items[1..])
  }

  function SerializeMembers(ms: seq<Member>): string
    decreases ms
  {
    if ms == [] then "" else StrText(ms[0].key) + Serialize(ms[0].value) + SerializeMembers(ms[1..])
  }

  // ---------------------------------------------------------------------------
  // Reading: each parser returns what it read and the text after it

  /** A decimal numeral closed by the character `term`. */
  function ParseNat(s: string, term: char): (r: Option<(nat, string)>)
    ensures r.Some? ==> |r.value.1| < |s|
  {
    var ds := TakeDigits(s, 10);
    if ds == [] || |ds| == |s| || s[|ds|] != term then None
    else Some((ValueIn(ds, 10), s[|ds| + 1..]))
  }

  /** A length-prefixed string. */
  function ParseStrText(s: string): (r: Option<(string, string)>)
    ensures r.Some? ==> |r.value.1| < |s|
  {
    var p :- ParseNat(s, ':');
    var (n, t) := p;
    if n <= |t| then Some((t[..n], t[n..])) else None
  }

  function ParseValue(s: string): (r: Option<(Json, string)>)
    ensures r.Some? ==> |r.value.1| < |s|
    decreases |s|, 0
  {
    if s == [] then None
    else if s[0] == 'n' then Some((JNull, s[1..]))
    else if s[0] == 't' then Some((JBool(true), s[1..]))
    else if s[0] == 'f' then Some((JBool(false), s[1..]))
    else if s[0] == '+' || s[0] == '-' then
      var p :- ParseNat(s[1..], ';');
      Some((JNum(if s[0] == '-' then -(p.0 as int) else p.0), p.1))
    else if s[0] == '"' then
      var p :- ParseStrText(s[1..]);
      Some((JStr(p.0), p.1))
    else if s[0] == '[' then
      var p :- ParseItems(s[1..]);
      Some((JArr(p.0), p.1))
    else if s[0] == '{' then
      var p :- ParseMembers(s[1..]);
      Some((JObj(p.0), p.1))
    else None
  }

  /** Array elements up to and including the closing `]`. */
  function ParseItems(s: string): (r: Option<(seq<Json>, string)>)
    ensures r.Some? ==> |r.value.1| < |s|
    decreases |s|, 1
  {
    if s == [] then None
    else if s[0] == ']' then Some(([], s[1..]))
    else
      var p :- ParseValue(s);
      var q :- ParseItems(p.1);
      Some(([p.0] + q.0, q.1))
  }

  /** Object members up to and including the closing `}`. */
  function ParseMembers(s: string): (r: Option<(seq<Member>, string)>)
    ensures r.Some? ==> |r.value.1| < |s|
    decreases |s|, 1
  {
    if s == [] then None
    else if s[0] == '}' then Some(([], s[1..]))
    else
      var k :- ParseStrText(s);
      var p :- ParseValue(k.1);
      var q :- ParseMembers(p.1);
      Some(([Member(k.0, p.0)] + q.0, q.1))
  }

  /** The value a whole text holds; `None` when the text is not the text of a value. */
  function Parse(text: string): Option<Json> {
    var p :- ParseValue(text);
    if p.1 == [] then Some(p.0) else None
  }

  // ---------------------------------------------------------------------------
  // Round trip

  lemma ParseNatOf(n: nat, term: char, rest: string)
    requires !IsDigitIn(term, 10)
    ensures ParseNat(NatToDecimal(n) + [term] + rest, term) == Some((n, rest))
  {
    var ds := NatToDecimal(n);
    var s := ds + [term] + rest;
    assert s == ds + ([term] + rest);
    TakeDigitsOf(ds, [term] + rest, 10);
    DecimalRoundTrip(n);
    assert s[|ds| + 1..] == rest;
  }

  lemma ParseStrTextOf(x: string, rest: string)
    ensures ParseStrText(StrText(x) + rest) == Some((x, rest))
  {
    var s := StrText(x) + rest;
    assert s == NatToDecimal(|x|) + [':'] + (x + rest);
    ParseNatOf(|x|, ':', x + rest);
    assert (x + rest)[..|x|] == x;
    assert (x + rest)[|x|..] == rest;
  }

  /** Reading the text of `v`, followed by anything, gives `v` and leaves what follows. */
  lemma {:induction false} ValueRoundTrip(v: Json, rest: string)
    ensures ParseValue(Serialize(v) + rest) == Some((v, rest))
    decreases v
  {
    match v
    case JNull =>
    case JBool(b) =>
    case JNum(n) => NumRoundTrip(n, rest);
    case JStr(x) => StrRoundTrip(x, rest);
    case JArr(items) =>
      assert Serialize(v) + rest == ['['] + (SerializeItems(items) + "]" + rest);
      ItemsRoundTrip(items, rest);
      ParsePrefixed('[', SerializeItems(items) + "]" + rest);
    case JObj(ms) =>
      assert Serialize(v) + rest == ['{'] + (SerializeMembers(ms) + "}" + rest);
      MembersRoundTrip(ms, rest);
      ParsePrefixed('{', SerializeMembers(ms) + "}" + rest);
  }

  lemma NumRoundTrip(n: int, rest: string)
    ensures ParseValue(Serialize(JNum(n)) + rest) == Some((JNum(n), rest))
  {
    var m: nat := if n < 0 then -n else n;
    var sign := if n < 0 then '-' else '+';
    assert Serialize(JNum(n)) + rest == [sign] + (NatToDecimal(m) + [';'] + rest);
    ParseNatOf(m, ';', rest);
    ParsePrefixed(sign, NatToDecimal(m) + [';'] + rest);
  }

  lemma StrRoundTrip(x: string, rest: string)
    ensures ParseValue(Serialize(JStr(x)) + rest) == Some((JStr(x), rest))
  {
    assert Serialize(JStr(x)) + rest == ['"'] + (StrText(x) + rest);
    ParseStrTextOf(x, rest);
    ParsePrefixed('"', StrText(x) + rest);
  }

  /** One step of `ParseValue`: the first character picks the reader for the rest. */
  lemma ParsePrefixed(c: char, t: string)
    ensures c == '+' ==> ParseValue([c] + t) == (var p :- ParseNat(t, ';'); Some((JNum(p.0), p.1)))
    ensures c == '-' ==> ParseValue([c] + t) == (var p :- ParseNat(t, ';'); Some((JNum(-(p.0 as int)), p.1)))
    ensures c == '"' ==> ParseValue([c] + t) == (var p :- ParseStrText(t); Some((JStr(p.0), p.1)))
    ensures c == '[' ==> ParseValue([c] + t) == (var p :- ParseItems(t); Some((JArr(p.0), p.1)))
    ensures c == '{' ==> ParseValue([c] + t) == (var p :- ParseMembers(t); Some((JObj(p.0), p.1)))
  {
    assert ([c] + t)[0] == c;
    assert ([c] + t)[1..] == t;
  }

  lemma {:induction false} ItemsRoundTrip(items: seq<Json>, rest: string)
    ensures ParseItems(SerializeItems(items) + "]" + rest) == Some((items, rest))
    decreases items
  {
    var s := SerializeItems(items) + "]" + rest;
    if items == [] {
      assert s == "]" + rest;
    } else {
      var tail := SerializeItems(items[1..]) + "]" + rest;
      assert s == Serialize(items[0]) + tail;
      ValueRoundTrip(items[0], tail);
      ItemsRoundTrip(items[1..], rest);
      SerializeStart(items[0]);
      assert [items[0]] + items[1..] == items;
    }
  }

  lemma {:induction false} MembersRoundTrip(ms: seq<Member>, rest: string)
    ensures ParseMembers(SerializeMembers(ms) + "}" + rest) == Some((ms, rest))
    decreases ms
  {
    var s := SerializeMembers(ms) + "}" + rest;
    if ms == [] {
      assert s == "}" + rest;
    } else {
      var tail := SerializeMembers(ms[1..]) + "}" + rest;
      var after := Serialize(ms[0].value) + tail;
      assert s == StrText(ms[0].key) + after;
      ParseStrTextOf(ms[0].key, after);
      ValueRoundTrip(ms[0].value, tail);
      MembersRoundTrip(ms[1..], rest);
      assert s[0] == NatToDecimal(|ms[0].key|)[0];
      assert [Member(ms[0].key, ms[0].value)] + ms[1..] == ms;
    }
  }

  /** No value's text starts with a closing bracket, so an array's end is never mistaken for an element. */
  lemma SerializeStart(v: Json)
    ensures |Serialize(v)| > 0 && Serialize(v)[0] != ']' && Serialize(v)[0] != '}'
  {
  }

  /** `JSON.parse(JSON.stringify(v))` is `v`. */
  lemma ParseSerialize(v: Json)
    ensures Parse(Serialize(v)) == Some(v)
  {
    ValueRoundTrip(v, []);
    assert Serialize(v) + [] == Serialize(v);
  }
}
