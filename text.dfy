/**
 * The JavaScript string and number built-ins the application relies on,
 * written out over `string` (= `seq<char>`): `trim`, `toLowerCase` (ASCII
 * letters only), `startsWith`, `includes`, `split(' ')[0]`, `parseInt` and the
 * decimal rendering of an integer (`Number.prototype.toString`).
 */
module Text {
  import opened Wrappers

  // ---------------------------------------------------------------------------
  // Whitespace and trim

  /** ECMAScript WhiteSpace and LineTerminator code points (what `trim` and `parseInt` skip). */
  predicate IsSpace(c: char) {
    var u := c as int;
    u == 0x09 || u == 0x0A || u == 0x0B || u == 0x0C || u == 0x0D || u == 0x20
    || u == 0xA0 || u == 0x1680 || (0x2000 <= u <= 0x200A) || u == 0x2028 || u == 0x2029
    || u == 0x202F || u == 0x205F || u == 0x3000 || u == 0xFEFF
  }

  /** Every character of `s` is whitespace (the empty string included). */
  predicate IsBlank(s: string) {
    forall i :: 0 <= i < |s| ==> IsSpace(s[i])
  }

  /** `s` without its leading whitespace. */
  function TrimStart(s: string): (r: string)
    ensures |r| <= |s| && r == s[|s| - |r|..]
    ensures IsBlank(s[..|s| - |r|])
    ensures r != [] ==> !IsSpace(r[0])
  {
    if s != [] && IsSpace(s[0]) then TrimStart(s[1..]) else s
  }

  /** `s` without its trailing whitespace. */
  function TrimEnd(s: string): (r: string)
    ensures |r| <= |s| && r == s[..|r|]
    ensures IsBlank(s[|r|..])
    ensures r != [] ==> !IsSpace(r[|r| - 1])
  {
    if s != [] && IsSpace(s[|s| - 1]) then TrimEnd(s[..|s| - 1]) else s
  }

  /** `String.prototype.trim`: `s` without its leading and its trailing whitespace. */
  function Trim(s: string): (r: string)
    ensures |r| <= |s|
    ensures r != [] ==> !IsSpace(r[0]) && !IsSpace(r[|r| - 1])
    ensures r == [] <==> IsBlank(s)
  {
    var t := TrimStart(s);
    var r := TrimEnd(t);
    TrimParts(s, t, r);
    r
  }

  /** The two trimming passes: the result starts where the first pass left off, and is empty exactly on blank input. */
  lemma TrimParts(s: string, t: string, r: string)
    requires t == TrimStart(s) && r == TrimEnd(t)
    ensures r != [] ==> r[0] == t[0]
    ensures r == [] <==> IsBlank(s)
  {
    var a := |s| - |t|;
    if r != [] { assert r[0] == t[..|r|][0]; }
    BlankJoin(s, a);
    assert s[a..] == t;
  }

  /** A string whose two halves are blank is blank, and the halves of a blank string are blank. */
  lemma BlankJoin(s: string, k: nat)
    requires k <= |s|
    ensures IsBlank(s) <==> IsBlank(s[..k]) && IsBlank(s[k..])
  {
    if IsBlank(s[..k]) && IsBlank(s[k..]) {
      forall i | 0 <= i < |s| ensures IsSpace(s[i]) {
        if i < k { assert s[..k][i] == s[i]; } else { assert s[k..][i - k] == s[i]; }
      }
    }
  }

  /** Trimming twice is trimming once. */
  lemma TrimIdempotent(s: string)
    ensures Trim(Trim(s)) == Trim(s)
  {
    var r := Trim(s);
    assert TrimStart(r) == r;
    assert TrimEnd(r) == r;
  }

  // ---------------------------------------------------------------------------
  // Lower case, prefixes and substrings

  predicate IsUpper(c: char) {
    'A' <= c <= 'Z'
  }

  /** `toLowerCase` on one character: ASCII capitals map to small letters, the rest stays. */
  function LowerChar(c: char): (r: char)
    ensures !IsUpper(r)
    ensures !IsUpper(c) ==> r == c
    ensures IsUpper(c) ==> 'a' <= r <= 'z' && r as int - c as int == 32
  {
    if IsUpper(c) then (c as int + 32) as char else c
  }

  /** `toLowerCase` on a string, character by character. */
  function Lower(s: string): (r: string)
    ensures |r| == |s|
    ensures forall i :: 0 <= i < |s| ==> r[i] == LowerChar(s[i])
  {
    if s == [] then [] else [LowerChar(s[0])] + Lower(s[1..])
  }

  /** Lower-casing is idempotent, and a string with no capital is its own lower case. */
  lemma {:induction false} LowerOfLower(s: string)
    ensures Lower(Lower(s)) == Lower(s)
    ensures (forall i :: 0 <= i < |s| ==> !IsUpper(s[i])) ==> Lower(s) == s
  {
    if s != [] {
      LowerOfLower(s[1..]);
      assert Lower(s)[1..] == Lower(s[1..]);
    }
  }

  /** `s.startsWith(p)`. */
  predicate StartsWith(s: string, p: string) {
    |p| <= |s| && s[..|p|] == p
  }

  /** A string that differs from `p` at one of `p`'s positions does not start with `p`. */
  lemma DiffersAt(s: string, p: string, k: nat)
    requires k < |p| && k < |s| && s[k] != p[k]
    ensures !StartsWith(s, p)
  {
    if |p| <= |s| {
      assert s[..|p|][k] == s[k];
    }
  }

  /** A string that starts with `p` is `p` followed by the rest. */
  lemma StartsWithSplit(s: string, p: string)
    requires StartsWith(s, p)
    ensures p + s[|p|..] == s
  {
    assert s == s[..|p|] + s[|p|..];
  }

  /** A prefix of `s` is a prefix of anything that extends `s`. */
  lemma StartsWithAppend(s: string, t: string, p: string)
    requires StartsWith(s, p)
    ensures StartsWith(s + t, p)
  {
    assert (s + t)[..|p|] == s[..|p|];
  }

  /** `s.includes(q)`: `q` occurs in `s` at some offset. */
  predicate Contains(s: string, q: string) {
    exists i: nat | i <= |s| :: OccursAt(s, q, i)
  }

  /** `q` sits in `s` at offset `i`. */
  predicate OccursAt(s: string, q: string, i: nat) {
    i + |q| <= |s| && s[i..i + |q|] == q
  }

  /** A string starts with each of its prefixes, so it contains them. */
  lemma PrefixContained(s: string, q: string)
    requires StartsWith(s, q)
    ensures Contains(s, q)
  {
    assert OccursAt(s, q, 0);
  }

  /** A string lacking one of the characters of `q` does not contain `q`. */
  lemma AbsentCharNotContains(s: string, q: string, k: nat)
    requires k < |q| && q[k] !in s
    ensures !Contains(s, q)
  {
    forall i: nat
      ensures !OccursAt(s, q, i)
    {
      if i + |q| <= |s| {
        assert s[i..i + |q|][k] == s[i + k];
      }
    }
  }

  /** Every string contains itself and the empty string. */
  lemma ContainsTrivial(s: string)
    ensures Contains(s, s) && Contains(s, "")
  {
    assert OccursAt(s, s, 0);
    assert OccursAt(s, "", 0);
  }

  /** `s.split(' ')[0]`: the text before the first U+0020 space (all of `s` when there is none). */
  function FirstToken(s: string): (r: string)
    ensures |r| <= |s| && r == s[..|r|]
    ensures forall i :: 0 <= i < |r| ==> r[i] != ' '
    ensures |r| == |s| || s[|r|] == ' '
  {
    if s == [] || s[0] == ' ' then [] else [s[0]] + FirstToken(s[1..])
  }

  // ---------------------------------------------------------------------------
  // Digits, parseInt and integer rendering

  /** The digit value of a character in ECMAScript's radix alphabet (0-9, a-z, A-Z), or -1. */
  function DigitOf(c: char): (d: int)
    ensures -1 <= d < 36
  {
    if '0' <= c <= '9' then c as int - '0' as int
    else if 'a' <= c <= 'z' then c as int - 'a' as int + 10
    else if 'A' <= c <= 'Z' then c as int - 'A' as int + 10
    else -1
  }

  predicate IsDigitIn(c: char, radix: nat) {
    0 <= DigitOf(c) < radix
  }

  predicate AllDigitsIn(s: string, radix: nat) {
    forall i :: 0 <= i < |s| ==> IsDigitIn(s[i], radix)
  }

  /** The longest prefix of `s` made of digits of `radix`. */
  function TakeDigits(s: string, radix: nat): (r: string)
    ensures |r| <= |s| && r == s[..|r|] && AllDigitsIn(r, radix)
    ensures |r| == |s| || !IsDigitIn(s[|r|], radix)
  {
    if s != [] && IsDigitIn(s[0], radix) then [s[0]] + TakeDigits(s[1..], radix) else []
  }

  /** A run of digits, most significant first, read as a number in `radix`. */
  function ValueIn(ds: string, radix: nat): nat
    requires AllDigitsIn(ds, radix)
  {
    if ds == [] then 0 else radix * ValueIn(ds[..|ds| - 1], radix) + DigitOf(ds[|ds| - 1])
  }

  /** The decimal digit character for `d`. */
  function DigitChar(d: nat): (c: char)
    requires d < 10
    ensures DigitOf(c) == d
  {
    ('0' as int + d) as char
  }

  /** The decimal numeral of `n`, without leading zeros. */
  function NatToDecimal(n: nat): (r: string)
    ensures r != [] && AllDigitsIn(r, 10)
    ensures |r| > 1 ==> r[0] != '0'
  {
    if n < 10 then [DigitChar(n)] else NatToDecimal(n / 10) + [DigitChar(n % 10)]
  }

  /** Reading back a decimal numeral gives the number. */
  lemma {:induction false} DecimalRoundTrip(n: nat)
    ensures ValueIn(NatToDecimal(n), 10) == n
  {
    if n >= 10 {
      DecimalRoundTrip(n / 10);
      var ds := NatToDecimal(n);
      assert ds[..|ds| - 1] == NatToDecimal(n / 10);
    }
  }

  /** Distinct numbers have distinct numerals. */
  lemma DecimalInjective(m: nat, n: nat)
    ensures NatToDecimal(m) == NatToDecimal(n) ==> m == n
  {
    DecimalRoundTrip(m);
    DecimalRoundTrip(n);
  }

  /** A digit run followed by a non-digit is taken whole. */
  lemma {:induction false} TakeDigitsOf(ds: string, rest: string, radix: nat)
    requires AllDigitsIn(ds, radix)
    requires rest == [] || !IsDigitIn(rest[0], radix)
    ensures TakeDigits(ds + rest, radix) == ds
  {
    if ds != [] {
      assert (ds + rest)[1..] == ds[1..] + rest;
      TakeDigitsOf(ds[1..], rest, radix);
    } else {
      assert ds + rest == rest;
    }
  }

  /** `String(n)` for an integer `n`. */
  function IntToDecimal(n: int): (r: string)
    ensures r != [] && !IsSpace(r[0])
  {
    if n < 0 then "-" + NatToDecimal(-n) else NatToDecimal(n)
  }

  /**
   * `parseInt(s)` without a radix argument: leading whitespace is skipped, one
   * sign is read, a `0x`/`0X` prefix selects radix 16, and the longest digit run
   * is read. `None` stands for NaN (no digit at all).
   */
  function ParseInt(s: string): Option<int> {
    ParseSigned(TrimStart(s))
  }

  /** One optional sign, then the magnitude. */
  function ParseSigned(t: string): Option<int> {
    if t != [] && t[0] == '-' then
      match ParseMagnitude(t[1..])
      case None => None
      case Some(v) => Some(-(v as int))
    else if t != [] && t[0] == '+' then
      match ParseMagnitude(t[1..])
      case None => None
      case Some(v) => Some(v)
    else
      match ParseMagnitude(t)
      case None => None
      case Some(v) => Some(v)
  }

  /** The digit run after the sign, in radix 16 behind a `0x`/`0X` prefix and in radix 10 otherwise. */
  function ParseMagnitude(u: string): Option<nat> {
    var hex := |u| >= 2 && u[0] == '0' && (u[1] == 'x' || u[1] == 'X');
    var radix := if hex then 16 else 10;
    var ds := TakeDigits(if hex then u[2..] else u, radix);
    if ds == [] then None else Some(ValueIn(ds, radix))
  }

  /** `parseInt(s) || 0`: NaN (and -0) read as 0. */
  function ParseIntOrZero(s: string): int {
    match ParseInt(s)
    case None => 0
    case Some(n) => n
  }

  /** A numeral of `NatToDecimal` has no `0x` prefix, is read whole and gives its number. */
  lemma DecimalDigitsRead(m: nat)
    ensures !(|NatToDecimal(m)| >= 2 && NatToDecimal(m)[0] == '0')
    ensures TakeDigits(NatToDecimal(m), 10) == NatToDecimal(m)
    ensures ValueIn(NatToDecimal(m), 10) == m
  {
    var u := NatToDecimal(m);
    TakeDigitsOf(u, [], 10);
    assert u + [] == u;
    DecimalRoundTrip(m);
  }

  /** Parsing the rendering of an integer gives the integer back. */
  lemma IntRoundTrip(n: int)
    ensures ParseIntOrZero(IntToDecimal(n)) == n
  {
    var m: nat := if n < 0 then -n else n;
    DecimalDigitsRead(m);
    assert ParseMagnitude(NatToDecimal(m)) == Some(m);
    var s := IntToDecimal(n);
    assert TrimStart(s) == s;
    if n < 0 {
      assert s[0] == '-' && s[1..] == NatToDecimal(m);
    } else {
      assert s == NatToDecimal(m);
    }
  }

  /** Text without any decimal digit reads as 0: non-numeric input is never an error. */
  lemma NoDigitsReadsZero(s: string)
    requires forall i :: 0 <= i < |s| ==> !IsDigitIn(s[i], 10)
    ensures ParseInt(s) == None && ParseIntOrZero(s) == 0
  {
    var t := TrimStart(s);
    assert forall i :: 0 <= i < |t| ==> t[i] == s[|s| - |t| + i];
    if t != [] && (t[0] == '-' || t[0] == '+') {
      NoDigitMagnitude(t[1..]);
    } else {
      NoDigitMagnitude(t);
    }
  }

  /** A magnitude that does not start with a decimal digit is NaN. */
  lemma NoDigitMagnitude(u: string)
    requires u == [] || !IsDigitIn(u[0], 10)
    ensures ParseMagnitude(u) == None
  {
  }

}
