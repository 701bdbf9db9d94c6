/**
 * The JavaScript string operations the bots rely on: `includes`, `toLowerCase`,
 * decimal rendering of a number inside a template literal, `parseInt`, and the
 * "first keyword of an ordered table that the message contains" scan that every
 * chat responder performs.
 */
module Strings {
  import opened Wrappers

  /** `sub` occurs in `s` starting at index `i`. */
  predicate OccursAt(s: string, sub: string, i: nat) {
    i + |sub| <= |s| && s[i..i + |sub|] == sub
  }

  /** JavaScript's `s.includes(sub)`. */
  predicate Contains(s: string, sub: string) {
    exists i: nat | i <= |s| :: OccursAt(s, sub, i)
  }

  lemma ContainsAt(s: string, sub: string, i: nat)
    requires OccursAt(s, sub, i)
    ensures Contains(s, sub)
  {
  }

  /** Containment is transitive: a message containing "banned" contains "ban". */
  lemma {:induction false} ContainsTransitive(s: string, mid: string, sub: string)
    requires Contains(s, mid) && Contains(mid, sub)
    ensures Contains(s, sub)
  {
    var i: nat :| i <= |s| && OccursAt(s, mid, i);
    var j: nat :| j <= |mid| && OccursAt(mid, sub, j);
    forall k | 0 <= k < |sub|
      ensures s[i + j + k] == sub[k]
    {
      assert s[i + j + k] == s[i..i + |mid|][j + k] == mid[j + k];
      assert mid[j + k] == mid[j..j + |sub|][k];
    }
    assert s[i + j..i + j + |sub|] == sub;
    assert OccursAt(s, sub, i + j);
  }

  lemma OccursAtFirstChar(s: string, sub: string, i: nat)
    requires sub != [] && OccursAt(s, sub, i)
    ensures s[i] == sub[0]
  {
    assert s[i..i + |sub|][0] == sub[0];
  }

  /** If the first character of `sub` is absent from `s` before `p`, and `sub` cannot fit from `p` on, `s` does not contain `sub`. */
  lemma NoOccurrenceBefore(s: string, sub: string, p: nat)
    requires sub != [] && p <= |s| && p + |sub| > |s|
    requires forall i :: 0 <= i < p ==> s[i] != sub[0]
    ensures !Contains(s, sub)
  {
    if Contains(s, sub) {
      var i: nat :| i <= |s| && OccursAt(s, sub, i);
      OccursAtFirstChar(s, sub, i);
      assert false;
    }
  }

  /** JavaScript's `toLowerCase` on one character, restricted to ASCII letters. */
  function LowerChar(c: char): char {
    if 'A' <= c <= 'Z' then (c as int + 32) as char else c
  }

  /** JavaScript's `s.toLowerCase()` (ASCII letters only). */
  function ToLower(s: string): (r: string)
    ensures |r| == |s|
    ensures forall i :: 0 <= i < |s| ==> r[i] == LowerChar(s[i])
  {
    seq(|s|, i requires 0 <= i < |s| => LowerChar(s[i]))
  }

  /** Lower-casing is idempotent and leaves no upper-case ASCII letter behind. */
  lemma ToLowerIdempotent(s: string)
    ensures ToLower(ToLower(s)) == ToLower(s)
    ensures forall i :: 0 <= i < |s| ==> !('A' <= ToLower(s)[i] <= 'Z')
  {
  }

  /**
   * JavaScript's `s.length`: the number of UTF-16 code units, so a character
   * outside the Basic Multilingual Plane counts twice.
   */
  function Utf16Length(s: string): (n: nat)
    ensures |s| <= n <= 2 * |s|
    ensures n == |s| <==> forall i :: 0 <= i < |s| ==> s[i] as int < 0x1_0000
  {
    if s == [] then 0
    else (if s[0] as int < 0x1_0000 then 1 else 2) + Utf16Length(s[1..])
  }

  predicate IsDigit(c: char) {
    '0' <= c <= '9'
  }

  predicate AllDigits(s: string) {
    forall i :: 0 <= i < |s| ==> IsDigit(s[i])
  }

  predicate NoDigits(s: string) {
    forall i :: 0 <= i < |s| ==> !IsDigit(s[i])
  }

  function DigitChar(d: nat): (c: char)
    requires d < 10
    ensures IsDigit(c)
  {
    ('0' as int + d) as char
  }

  function DigitValue(c: char): (d: nat)
    requires IsDigit(c)
    ensures d < 10 && DigitChar(d) == c
  {
    c as int - '0' as int
  }

  /** `${n}` for a non-negative integer: decimal, no leading zeros. */
  function DecimalString(n: nat): (s: string)
    ensures 0 < |s| && AllDigits(s)
    ensures n < 10 <==> |s| == 1
    decreases n
  {
    if n < 10 then [DigitChar(n)] else DecimalString(n / 10) + [DigitChar(n % 10)]
  }

  /** The number a non-empty run of decimal digits denotes. */
  function DigitsValue(s: string): nat
    requires AllDigits(s)
    decreases |s|
  {
    if s == [] then 0 else DigitsValue(s[..|s| - 1]) * 10 + DigitValue(s[|s| - 1])
  }

  /** Reading back the decimal rendering of `n` gives `n`. */
  lemma {:induction false} DecimalRoundTrip(n: nat)
    ensures DigitsValue(DecimalString(n)) == n
  {
    var s := DecimalString(n);
    if n < 10 {
      assert s[..|s| - 1] == [];
    } else {
      DecimalRoundTrip(n / 10);
      assert s[..|s| - 1] == DecimalString(n / 10);
    }
  }

  /** Distinct numbers render differently. */
  lemma DecimalInjective(a: nat, b: nat)
    requires DecimalString(a) == DecimalString(b)
    ensures a == b
  {
    DecimalRoundTrip(a);
    DecimalRoundTrip(b);
  }

  lemma CharOfConcat(p: string, d: string, i: int)
    ensures 0 <= i < |p| ==> (p + d)[i] == p[i]
    ensures |p| <= i < |p| + |d| ==> (p + d)[i] == d[i - |p|]
  {
  }

  /** A name without digits followed by a decimal number determines both parts. */
  lemma {:induction false} DigitSuffixSeparates(p: string, q: string, a: nat, b: nat)
    requires NoDigits(p) && NoDigits(q)
    ensures p + DecimalString(a) == q + DecimalString(b) <==> p == q && a == b
  {
    var x, y := p + DecimalString(a), q + DecimalString(b);
    if x == y {
      if |p| < |q| {
        CharOfConcat(p, DecimalString(a), |p|);
        CharOfConcat(q, DecimalString(b), |p|);
        assert false;
      } else if |q| < |p| {
        CharOfConcat(q, DecimalString(b), |q|);
        CharOfConcat(p, DecimalString(a), |q|);
        assert false;
      } else {
        assert p == x[..|p|] == y[..|q|] == q;
        assert DecimalString(a) == x[|p|..] == y[|q|..] == DecimalString(b);
        DecimalInjective(a, b);
      }
    }
  }

  // ---------------------------------------------------------------------------
  // parseInt (decimal): leading white space, an optional sign, then the longest
  // run of digits; NaN (None) when there is no digit.

  /**
   * The white space `parseInt` skips (StrWhiteSpaceChar of ECMA-262): tab,
   * vertical tab, form feed, the byte order mark, every space separator of
   * Unicode category Zs, and the four line terminators.
   */
  predicate IsSpace(c: char) {
    || c == '\t' || c == '\n' || c == '\U{B}' || c == '\U{C}' || c == '\r' || c == ' '
    || c == '\U{A0}' || c == '\U{1680}' || '\U{2000}' <= c <= '\U{200A}'
    || c == '\U{2028}' || c == '\U{2029}' || c == '\U{202F}' || c == '\U{205F}'
    || c == '\U{3000}' || c == '\U{FEFF}'
  }

  function TrimStart(s: string): (r: string)
    ensures |r| <= |s| && r == s[|s| - |r|..]
    ensures r == [] || !IsSpace(r[0])
    decreases |s|
  {
    if s != [] && IsSpace(s[0]) then TrimStart(s[1..]) else s
  }

  /** The longest prefix of `s` made of digits. */
  function DigitPrefix(s: string): (r: string)
    ensures AllDigits(r) && |r| <= |s| && r == s[..|r|]
    ensures |r| < |s| ==> !IsDigit(s[|r|])
    decreases |s|
  {
    if s != [] && IsDigit(s[0]) then [s[0]] + DigitPrefix(s[1..]) else []
  }

  /** JavaScript's `parseInt(s)` for decimal input; `None` stands for NaN. */
  function ParseInt(s: string): (r: Option<int>)
  {
    var t := TrimStart(s);
    if t != [] && t[0] == '-' then ParseNegative(t[1..])
    else if t != [] && t[0] == '+' then ParseUnsigned(t[1..])
    else ParseUnsigned(t)
  }

  /** The value of the leading digit run, NaN when there is none. */
  function ParseDigits(b: string): (r: Option<nat>)
    ensures r.None? <==> b == [] || !IsDigit(b[0])
  {
    var digits := DigitPrefix(b);
    if digits == [] then None else Some(DigitsValue(digits))
  }

  function ParseUnsigned(b: string): (r: Option<int>)
    ensures r.None? <==> b == [] || !IsDigit(b[0])
  {
    match ParseDigits(b)
    case None => None
    case Some(m) => Some(m)
  }

  function ParseNegative(b: string): (r: Option<int>)
    ensures r.None? <==> b == [] || !IsDigit(b[0])
  {
    match ParseDigits(b)
    case None => None
    case Some(m) => Some(0 - m)
  }

  lemma ParseIntOfDigits(s: string)
    requires s != [] && AllDigits(s)
    ensures ParseInt(s) == Some(DigitsValue(s) as int)
  {
    ParseIntOfDigitsThen(s, []);
    assert s + [] == s;
  }

  /** `parseInt` reads back any decimal rendering exactly. */
  lemma ParseIntDecimal(n: nat)
    ensures ParseInt(DecimalString(n)) == Some(n)
  {
    ParseIntOfDigits(DecimalString(n));
    DecimalRoundTrip(n);
  }

  lemma {:induction false} AllDigitsPrefix(s: string)
    requires AllDigits(s)
    ensures DigitPrefix(s) == s
    decreases |s|
  {
    if s != [] {
      AllDigitsPrefix(s[1..]);
    }
  }

  lemma {:induction false} DigitPrefixOfConcat(d: string, rest: string)
    requires AllDigits(d) && (rest == [] || !IsDigit(rest[0]))
    ensures DigitPrefix(d + rest) == d
    decreases |d|
  {
    if d != [] {
      assert (d + rest)[1..] == d[1..] + rest;
      DigitPrefixOfConcat(d[1..], rest);
    }
  }

  lemma TrimStartAtDigit(t: string)
    requires t != [] && IsDigit(t[0])
    ensures TrimStart(t) == t
  {
  }

  lemma ParseIntOfDigitsThen(d: string, rest: string)
    requires d != [] && AllDigits(d) && (rest == [] || !IsDigit(rest[0]))
    ensures ParseInt(d + rest) == Some(DigitsValue(d) as int)
  {
    var t := d + rest;
    assert t[0] == d[0];
    ParseIntAtDigit(t);
    ParseDigitsOfConcat(d, rest);
  }

  lemma ParseIntAtDigit(t: string)
    requires t != [] && IsDigit(t[0])
    ensures ParseInt(t) == ParseUnsigned(t)
  {
    TrimStartAtDigit(t);
  }

  lemma ParseDigitsOfConcat(d: string, rest: string)
    requires d != [] && AllDigits(d) && (rest == [] || !IsDigit(rest[0]))
    ensures ParseDigits(d + rest) == Some(DigitsValue(d))
  {
    DigitPrefixOfConcat(d, rest);
  }

  /** `parseInt` reads the leading number and ignores whatever follows its last digit. */
  lemma ParseIntIgnoresSuffix(n: nat, rest: string)
    requires rest == [] || !IsDigit(rest[0])
    ensures ParseInt(DecimalString(n) + rest) == Some(n)
  {
    ParseIntOfDigitsThen(DecimalString(n), rest);
    DecimalRoundTrip(n);
  }

  /** The no-break space and the byte order mark are skipped like any other leading white space. */
  lemma ParseIntSkipsUnicodeSpace()
    ensures ParseInt("\U{A0}\U{FEFF}7") == Some(7)
  {
    TrimUnicodeSpace();
    ParseIntOfSeven("\U{A0}\U{FEFF}7");
  }

  lemma TrimUnicodeSpace()
    ensures TrimStart("\U{A0}\U{FEFF}7") == "7"
  {
    assert "\U{A0}\U{FEFF}7" == ['\U{A0}'] + (['\U{FEFF}'] + "7");
    TrimSpaceThen('\U{A0}', ['\U{FEFF}'] + "7");
    TrimSpaceThen('\U{FEFF}', "7");
  }

  lemma TrimSpaceThen(c: char, r: string)
    requires IsSpace(c)
    ensures TrimStart([c] + r) == TrimStart(r)
  {
    assert ([c] + r)[1..] == r;
  }

  lemma ParseIntOfSeven(s: string)
    requires TrimStart(s) == "7"
    ensures ParseInt(s) == Some(7)
  {
    var d := TrimStart(s);
    assert d[0] == '7';
    assert ParseUnsigned(d) == Some(7) by {
      assert DigitPrefix(d) == d;
      assert DigitsValue(d) == DigitValue('7') == 7;
    }
  }

  /** `parseInt` of a string that does not start with a sign, space or digit is NaN. */
  lemma ParseIntNoDigit(s: string)
    requires s != [] && !IsSpace(s[0]) && !IsDigit(s[0]) && s[0] != '-' && s[0] != '+'
    ensures ParseInt(s) == None
  {
  }

  // ---------------------------------------------------------------------------
  // Picking from a list with Math.floor(Math.random() * n).

  /** `Math.floor(roll * n)` for a draw `roll` in [0, 1): always a valid index. */
  function PickIndex(roll: real, n: nat): (k: nat)
    requires 0.0 <= roll < 1.0 && 0 < n
    ensures k < n
  {
    RollBelowOne(roll, n);
    var x := roll * n as real;
    assert 0 <= x.Floor;
    x.Floor
  }

  lemma RollBelowOne(roll: real, n: nat)
    requires 0.0 <= roll < 1.0 && 0 < n
    ensures 0.0 <= roll * n as real < n as real
  {
    assert (1.0 - roll) * n as real > 0.0;
  }

  function Pick(items: seq<string>, roll: real): (s: string)
    requires 0.0 <= roll < 1.0 && 0 < |items|
    ensures s in items
  {
    items[PickIndex(roll, |items|)]
  }

  // ---------------------------------------------------------------------------
  // First-match keyword tables.

  /** Index of the first keyword (in table order) that `msg` contains, if any. */
  function FirstMatch(keys: seq<string>, msg: string): (r: Option<nat>)
    ensures r.Some? ==> r.value < |keys| && Contains(msg, keys[r.value])
    ensures r.Some? ==> forall j :: 0 <= j < r.value ==> !Contains(msg, keys[j])
    ensures r.None? ==> forall j :: 0 <= j < |keys| ==> !Contains(msg, keys[j])
  {
    FirstMatchFrom(keys, msg, 0)
  }

  function FirstMatchFrom(keys: seq<string>, msg: string, from: nat): (r: Option<nat>)
    requires from <= |keys|
    requires forall j :: 0 <= j < from ==> !Contains(msg, keys[j])
    ensures r.Some? ==> from <= r.value < |keys| && Contains(msg, keys[r.value])
    ensures r.Some? ==> forall j :: 0 <= j < r.value ==> !Contains(msg, keys[j])
    ensures r.None? ==> forall j :: 0 <= j < |keys| ==> !Contains(msg, keys[j])
    decreases |keys| - from
  {
    if from == |keys| then None
    else if Contains(msg, keys[from]) then Some(from)
    else FirstMatchFrom(keys, msg, from + 1)
  }

  /** The three clauses of FirstMatch's contract pin its result down. */
  lemma FirstMatchUnique(keys: seq<string>, msg: string, r: Option<nat>)
    requires r.Some? ==> r.value < |keys| && Contains(msg, keys[r.value])
    requires r.Some? ==> forall j :: 0 <= j < r.value ==> !Contains(msg, keys[j])
    requires r.None? ==> forall j :: 0 <= j < |keys| ==> !Contains(msg, keys[j])
    ensures r == FirstMatch(keys, msg)
  {
  }

  /**
   * The `for (const [keyword, ...] of Object.entries(table)) { if (msg.includes(keyword)) { ...; break; } }`
   * scan: stops at the first keyword the message contains.
   */
  method ScanKeywords(keys: seq<string>, msg: string) returns (found: Option<nat>)
    ensures found == FirstMatch(keys, msg)
  {
    found := None;
    var i := 0;
    while i < |keys|
      invariant 0 <= i <= |keys|
      invariant forall j :: 0 <= j < i ==> !Contains(msg, keys[j])
    {
      if Contains(msg, keys[i]) {
        found := Some(i);
        break;
      }
      i := i + 1;
    }
    FirstMatchUnique(keys, msg, found);
  }
}
